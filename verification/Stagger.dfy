/** Day-aware slot allocation for enrollment staggering.

Slots are numbered by day offset. Offset 0 is "today, due at once"; offset k
is the working morning `dueAfterDelay` gives for a k-day delay, so around days
off several offsets collapse onto one date. The allocator hands out the earliest
offset whose date still has room. */
module Stagger {
  import opened Wrappers
  import opened LocalTime
  import opened WorkingSchedule
  import opened GreedySlots

  /** What an allocation depends on besides the occupancy so far. */
  datatype Setup = Setup(now: int, cap: int, schedule: Schedule) {

    predicate Valid() {
      schedule.Valid() && cap >= 1
    }

    /** The instant offered at an offset; None is "now". */
    function Slot(offset: nat): Option<int> {
      if offset == 0 then None else Due(now, offset * DAY_SECONDS, schedule)
    }

    /** The date a slot or a committed due time counts against: overdue and
        immediate entries count against today. */
    function ClaimDay(at: Option<int>): int {
      if at.Some? && at.value > now then DayOf(at.value) else DayOf(now)
    }

    function Claim(): Option<int> -> int {
      (at: Option<int>) => ClaimDay(at)
    }

    /** The date each offset falls on. */
    function Rule(): DayRule {
      (offset: nat) => ClaimDay(Slot(offset))
    }

    /** The dates a ledger of committed due times counts against. */
    function Days(ledger: seq<Option<int>>): (r: seq<int>)
      ensures |r| == |ledger| && forall i :: 0 <= i < |r| ==> r[i] == ClaimDay(ledger[i])
    {
      Map(Claim(), ledger)
    }

    /** Occupancy rebuilt from a ledger. */
    function FromLedger(ledger: seq<Option<int>>): Occupancy {
      FromDays(Days(ledger))
    }
  }

  // ----- the same, in milliseconds

  /** What a due time counts against: its own date while it lies ahead, today otherwise. */
  predicate CountsOn(now: int, at: Option<int>, date: int) {
    date == (if at.Some? && now < at.value then at.value else now) / 86_400_000
  }

  /** A slot: at once, or the opening of the window some whole days ahead, the first working day from there. */
  ghost predicate IsSlot(now: int, s: Schedule, at: Option<int>) {
    at.Some? ==> exists days: nat, date :: OpensOn(now, days * 86_400, s, at.value, date)
  }

  lemma SlotIsSlot(u: Setup, k: nat)
    ensures IsSlot(u.now, u.schedule, u.Slot(k)) && u.Slot(0) == None
  {
    if k > 0 {
      DueIsByDelay(u.now, k * 86_400, u.schedule);
    }
  }

  /** The entries of a ledger that count against a date. */
  function On(now: int, ledger: seq<Option<int>>, date: int): set<nat> {
    set i: nat | i < |ledger| && CountsOn(now, ledger[i], date)
  }

  lemma {:induction false} OnIsMultiplicity(u: Setup, ledger: seq<Option<int>>, date: int)
    ensures multiset(u.Days(ledger))[date] == |On(u.now, ledger, date)|
  {
    if ledger == [] {
      assert On(u.now, ledger, date) == {};
    } else {
      var n: nat := |ledger| - 1;
      OnIsMultiplicity(u, ledger[..n], date);
      assert u.Days(ledger) == u.Days(ledger[..n]) + [u.ClaimDay(ledger[n])];
      OnOneMore(u, ledger, date);
    }
  }

  lemma OnOneMore(u: Setup, ledger: seq<Option<int>>, date: int)
    requires ledger != []
    ensures var n := |ledger| - 1;
            |On(u.now, ledger, date)| == |On(u.now, ledger[..n], date)| + if u.ClaimDay(ledger[n]) == date then 1 else 0
  {
    var n: nat := |ledger| - 1;
    var before, after := On(u.now, ledger[..n], date), On(u.now, ledger, date);
    forall i: nat ensures i in after <==> i in before || (i == n && CountsOn(u.now, ledger[n], date)) {
      assert i < n ==> ledger[..n][i] == ledger[i];
    }
    if CountsOn(u.now, ledger[n], date) {
      assert after == before + {n};
    } else {
      assert after == before;
    }
  }

  // ----- where offsets land

  lemma SlotLandsOn(u: Setup, k: nat)
    requires u.schedule.Valid() && k > 0
    ensures u.Slot(k) == Some(At(FirstActive(u.schedule, DayOf(u.now) + k, 8), u.schedule.hoursStart))
    ensures u.now < u.Slot(k).value
    ensures u.Rule()(k) == DayOf(u.Slot(k).value) == FirstActive(u.schedule, DayOf(u.now) + k, 8)
  {
    DueIsLater(u.now, k * DAY_SECONDS, u.schedule);
    assert DayOf(u.now + k * DAY_SECONDS * 1000) == DayOf(u.now) + k;
    ReadBackAt(FirstActive(u.schedule, DayOf(u.now) + k, 8), u.schedule.hoursStart);
  }

  lemma OffsetOrder(u: Setup, i: nat, j: nat)
    requires u.schedule.Valid() && i <= j
    ensures u.Rule()(i) <= u.Rule()(j)
    ensures 0 < i && i + 7 <= j ==> u.Rule()(i) < u.Rule()(j)
  {
    if j > 0 {
      SlotLandsOn(u, j);
    }
    if i > 0 {
      SlotLandsOn(u, i);
      FirstActiveMonotone(u.schedule, DayOf(u.now) + i, DayOf(u.now) + j);
      if u.schedule.HasActiveDay() {
        FirstActiveIsActive(u.schedule, DayOf(u.now) + i, 8);
      } else {
        NeverActive(u.schedule, DayOf(u.now) + i, 8);
        NeverActive(u.schedule, DayOf(u.now) + j, 8);
      }
    }
  }

  /** The calendar gives greedy placement the two facts it needs, days off or not. */
  lemma CalendarSpreads(u: Setup)
    requires u.Valid()
    ensures Spreads(u.Rule(), u.cap)
  {
    forall i: nat, j: nat | i <= j
      ensures u.Rule()(i) <= u.Rule()(j)
      ensures 0 < i && i + 7 <= j ==> u.Rule()(i) < u.Rule()(j)
    {
      OffsetOrder(u, i, j);
    }
  }

  // ----- what an allocator hands out

  ghost function NextOffset(u: Setup, occ: Occupancy): nat {
    FreeOffset(u.Rule(), u.cap, occ)
  }

  function SlotsAt(u: Setup, offsets: seq<nat>): (r: seq<Option<int>>)
    ensures |r| == |offsets| && forall i :: 0 <= i < |r| ==> r[i] == u.Slot(offsets[i])
  {
    seq(|offsets|, i requires 0 <= i < |offsets| => u.Slot(offsets[i]))
  }

  lemma SlotsAtConcat(u: Setup, a: seq<nat>, b: seq<nat>)
    ensures SlotsAt(u, a + b) == SlotsAt(u, a) + SlotsAt(u, b)
  {
  }

  /** The first n slots handed out by an allocator seeded with a ledger. */
  ghost function Slots(u: Setup, ledger: seq<Option<int>>, n: nat): (r: seq<Option<int>>)
    ensures |r| == n
  {
    SlotsAt(u, Offsets(u.Rule(), u.cap, u.FromLedger(ledger), n))
  }

  /** The occupancy once n slots were handed out over a ledger. */
  ghost function Filled(u: Setup, ledger: seq<Option<int>>, n: nat): Occupancy {
    AfterClaims(u.Rule(), u.cap, u.FromLedger(ledger), n)
  }

  /** One more claim appends one more slot. */
  lemma SlotsExtend(u: Setup, ledger: seq<Option<int>>, n: nat, at: Option<int>)
    requires at == u.Slot(NextOffset(u, Filled(u, ledger, n)))
    ensures Slots(u, ledger, n + 1) == Slots(u, ledger, n) + [at]
    ensures Filled(u, ledger, n + 1) == Bump(Filled(u, ledger, n), u.ClaimDay(at))
  {
    SlotsAtConcat(u, Offsets(u.Rule(), u.cap, u.FromLedger(ledger), n), [NextOffset(u, Filled(u, ledger, n))]);
  }

  /** The search `next` performs always ends, within 7 * (full days) + 2 tries. */
  lemma NextTerminates(u: Setup, occ: Occupancy)
    requires u.Valid()
    ensures IsLeastFree(u.Rule(), u.cap, occ, NextOffset(u, occ))
    ensures NextOffset(u, occ) <= 7 * |FullDays(u.cap, occ)| + 1
  {
    CalendarSpreads(u);
    FreeOffsetIsLeast(u.Rule(), u.cap, occ);
  }

  /** The slot is the earliest DATE with room: every working day with room is at
      or after it, and today is used whenever it has room. */
  lemma SlotIsEarliestDayWithRoom(u: Setup, occ: Occupancy, day: int)
    requires u.Valid() && Claims(occ, day) < u.cap
    requires day == DayOf(u.now) || (day > DayOf(u.now) && u.schedule.ActiveDay(day))
    ensures u.ClaimDay(u.Slot(NextOffset(u, occ))) <= day
    ensures day == DayOf(u.now) ==> u.Slot(NextOffset(u, occ)) == None
  {
    NextTerminates(u, occ);
    CalendarSpreads(u);
    var offset: nat := day - DayOf(u.now);
    if offset > 0 {
      SlotLandsOn(u, offset);
    }
    assert u.Rule()(offset) == day;
    assert HasRoom(u.Rule(), u.cap, occ, offset);
  }

  /** Later claims never land on an earlier date. */
  lemma SlotsNonDecreasing(u: Setup, ledger: seq<Option<int>>, n: nat, i: nat, j: nat)
    requires u.Valid() && i <= j < n
    ensures u.ClaimDay(Slots(u, ledger, n)[i]) <= u.ClaimDay(Slots(u, ledger, n)[j])
  {
    CalendarSpreads(u);
    OffsetsNonDecreasing(u.Rule(), u.cap, u.FromLedger(ledger), n, i, j);
    var offsets := Offsets(u.Rule(), u.cap, u.FromLedger(ledger), n);
    assert u.Rule()(offsets[i]) <= u.Rule()(offsets[j]);
  }

  /** However many slots are claimed, no date ends above the cap unless it
      started above it, and then it is left alone. */
  lemma DayNeverPastCap(u: Setup, ledger: seq<Option<int>>, n: nat, day: int)
    requires u.Valid()
    ensures var before := |On(u.now, ledger, day)|;
            var after := |On(u.now, ledger + Slots(u, ledger, n), day)|;
            before <= after <= if before > u.cap then before else u.cap
  {
    CalendarSpreads(u);
    var occ := u.FromLedger(ledger);
    NeverPastCap(u.Rule(), u.cap, occ, n, day);
    ClaimsMatchRecord(u.Rule(), u.cap, u.Days(ledger), n);
    SlotsRecordTheirDays(u, ledger, n);
    ClaimsAreMultiplicity(u.Days(ledger), day);
    ClaimsAreMultiplicity(u.Days(ledger + Slots(u, ledger, n)), day);
    OnIsMultiplicity(u, ledger, day);
    OnIsMultiplicity(u, ledger + Slots(u, ledger, n), day);
  }

  lemma FilledIsOn(u: Setup, ledger: seq<Option<int>>, n: nat, day: int)
    requires u.Valid()
    ensures Claims(Filled(u, ledger, n), day) == |On(u.now, ledger + Slots(u, ledger, n), day)|
  {
    ClaimsMatchRecord(u.Rule(), u.cap, u.Days(ledger), n);
    SlotsRecordTheirDays(u, ledger, n);
    ClaimsAreMultiplicity(u.Days(ledger + Slots(u, ledger, n)), day);
    OnIsMultiplicity(u, ledger + Slots(u, ledger, n), day);
  }

  /** The next slot is the best one left: at once while today has room, and otherwise on or before
      every working date with room; it always lands on a date with room. */
  lemma NextSlotIsEarliest(u: Setup, ledger: seq<Option<int>>, n: nat, day: int)
    requires u.Valid()
    ensures var so, at := ledger + Slots(u, ledger, n), Slots(u, ledger, n + 1)[n];
            && Slots(u, ledger, n + 1)[..n] == Slots(u, ledger, n) && IsSlot(u.now, u.schedule, at)
            && (at == None <==> |On(u.now, so, u.now / 86_400_000)| < u.cap)
            && (CountsOn(u.now, at, day) ==> |On(u.now, so, day)| < u.cap)
            && (|On(u.now, so, day)| < u.cap && u.now / 86_400_000 < day && Workday(u.schedule, day) && at.Some? ==>
                  at.value / 86_400_000 <= day)
  {
    var occ := Filled(u, ledger, n);
    var k := NextOffset(u, occ);
    SlotsExtend(u, ledger, n, u.Slot(k));
    SlotIsSlot(u, k);
    FilledIsOn(u, ledger, n, day);
    FilledIsOn(u, ledger, n, u.now / 86_400_000);
    NextTerminates(u, occ);
    if k > 0 {
      SlotLandsOn(u, k);
    }
    assert HasRoom(u.Rule(), u.cap, occ, k);
    if Claims(occ, u.now / 86_400_000) < u.cap {
      SlotIsEarliestDayWithRoom(u, occ, u.now / 86_400_000);
    } else {
      assert !HasRoom(u.Rule(), u.cap, occ, 0);
    }
    if Claims(occ, day) < u.cap && u.now / 86_400_000 < day && Workday(u.schedule, day) {
      assert u.schedule.ActiveDay(day);
      SlotIsEarliestDayWithRoom(u, occ, day);
    }
  }

  /** Storing the slots handed out records exactly the dates they claimed. */
  lemma SlotsRecordTheirDays(u: Setup, ledger: seq<Option<int>>, n: nat)
    requires u.Valid()
    ensures u.Days(ledger + Slots(u, ledger, n))
         == u.Days(ledger) + Map(u.Rule(), Offsets(u.Rule(), u.cap, u.FromLedger(ledger), n))
  {
  }

  /** Splitting a batch does not matter. Allocate n slots, store them, build a
      fresh allocator at the same instant from the longer ledger in whatever order
      the store returns it, and allocate m more: the slots are those of one batch of n+m. */
  lemma BatchSplit(u: Setup, ledger: seq<Option<int>>, n: nat, m: nat, reread: seq<Option<int>>)
    requires u.Valid()
    requires multiset(reread) == multiset(ledger + Slots(u, ledger, n))
    ensures Slots(u, ledger, n + m) == Slots(u, ledger, n) + Slots(u, reread, m)
  {
    CalendarSpreads(u);
    SlotsRecordTheirDays(u, ledger, n);
    MapOfPermutation(u.Claim(), reread, ledger + Slots(u, ledger, n));
    SplitBatch(u.Rule(), u.cap, u.Days(ledger), n, m, u.Days(reread));
    SlotsAtConcat(u, Offsets(u.Rule(), u.cap, u.FromLedger(ledger), n), Offsets(u.Rule(), u.cap, u.FromLedger(reread), m));
  }

  /** One try of the search: it succeeds exactly when it has reached the least free offset. */
  lemma TryOffset(u: Setup, occ: Occupancy, day: nat)
    requires u.Valid() && day <= NextOffset(u, occ)
    ensures day > 0 ==> u.Slot(day).Some? && u.now < u.Slot(day).value
    ensures Claims(occ, u.ClaimDay(u.Slot(day))) < u.cap <==> day == NextOffset(u, occ)
  {
    NextTerminates(u, occ);
    if day > 0 {
      SlotLandsOn(u, day);
    }
    assert HasRoom(u.Rule(), u.cap, occ, day) <==> Claims(occ, u.ClaimDay(u.Slot(day))) < u.cap;
  }

  // ----- the allocator

  class StaggerAllocator {
    const u: Setup
    var occupancy: Occupancy

    constructor (u: Setup, existing: seq<Option<int>>)
      ensures this.u == u && occupancy == u.FromLedger(existing)
    {
      this.u := u;
      this.occupancy := map[];
      new;
      for i := 0 to |existing|
        invariant this.u == u && occupancy == FromDays(u.Days(existing)[..i])
      {
        var days := u.Days(existing);
        assert days[..i + 1][..i] == days[..i];
        Claim(if existing[i].Some? && existing[i].value > u.now then existing[i].value else u.now);
      }
      assert u.Days(existing)[..|existing|] == u.Days(existing);
    }

    method Claim(at: int)
      modifies this
      ensures occupancy == Bump(old(occupancy), DayOf(at))
    {
      var key := DayOf(at);
      occupancy := occupancy[key := (if key in occupancy then occupancy[key] else 0) + 1];
    }

    /** Walk day offsets until one has room. The source's loop carries no bound;
        the least free offset supplies the one that makes it terminate. */
    method Next() returns (at: Option<int>)
      requires u.Valid()
      modifies this
      ensures at == u.Slot(NextOffset(u, old(occupancy)))
      ensures occupancy == Bump(old(occupancy), u.ClaimDay(at))
      ensures at.Some? ==> u.now < at.value
    {
      var day: nat := 0;
      while true
        invariant occupancy == old(occupancy)
        invariant day <= NextOffset(u, occupancy)
        decreases NextOffset(u, old(occupancy)) - day
      {
        if day == 0 {
          at := None;
        } else {
          at := DueAfterDelay(u.now, day * DAY_SECONDS, u.schedule);
        }
        TryOffset(u, occupancy, day);
        var key := DayOf(if at.Some? then at.value else u.now);
        if (if key in occupancy then occupancy[key] else 0) < u.cap {
          Claim(if at.Some? then at.value else u.now);
          return;
        }
        day := day + 1;
      }
    }
  }
}
