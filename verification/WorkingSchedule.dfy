/** When an account may act, and where a deferred or delayed step lands.

Covers `scheduleDefer` and `activeHoursDefer` of the safety gate and
`dueAfterDelay` of the dispatcher. The searches are loops in the source and
loops here; each is proved against a specification function, and the laws the
callers rely on are proved about those functions. */
module WorkingSchedule {
  import opened Wrappers
  import opened LocalTime

  /** An hour window [hoursStart, hoursEnd) and the weekdays it applies to.
      hoursStart >= hoursEnd switches the hour gate off. */
  datatype Schedule = Schedule(hoursStart: int, hoursEnd: int, days: set<int>) {

    /** The field ranges the type documents. `days` may hold anything: only
        membership of real weekdays is ever asked. */
    predicate Valid() {
      0 <= hoursStart < 24 && 0 <= hoursEnd <= 24
    }

    predicate HourGateOn() {
      hoursStart < hoursEnd
    }

    /** The hour a deferral lands on. */
    function StartHour(): int {
      if HourGateOn() then hoursStart else 0
    }

    predicate ActiveDay(day: int) {
      Weekday(day) in days
    }

    predicate HourOpen(hour: int) {
      !HourGateOn() || hoursStart <= hour < hoursEnd
    }

    /** The account may act at this instant. */
    predicate Open(t: int) {
      ActiveDay(DayOf(t)) && HourOpen(HourOf(t))
    }

    /** At least one weekday is active. */
    predicate HasActiveDay() {
      exists w :: 0 <= w < 7 && w in days
    }
  }

  /** The first active day among day, day+1, ..., day+tries-1, else day+tries. */
  function FirstActive(s: Schedule, day: int, tries: nat): (r: int)
    ensures day <= r <= day + tries
    ensures forall d :: day <= d < r ==> !s.ActiveDay(d)
    ensures r < day + tries ==> s.ActiveDay(r)
    decreases tries
  {
    if tries == 0 || s.ActiveDay(day) then day else FirstActive(s, day + 1, tries - 1)
  }

  /** Every run of seven consecutive days contains an active one. */
  lemma ActiveWithinAWeek(s: Schedule, day: int)
    requires s.HasActiveDay()
    ensures exists d :: day <= d < day + 7 && s.ActiveDay(d)
  {
    var w :| 0 <= w < 7 && w in s.days;
    var d := day + (w - Weekday(day)) % 7;
    assert Weekday(d) == w;
    assert s.ActiveDay(d);
  }

  lemma NoActiveDay(s: Schedule, day: int)
    requires !s.HasActiveDay()
    ensures !s.ActiveDay(day)
  {
    assert 0 <= Weekday(day) < 7;
  }

  /** The search limit of eight never matters when some weekday is active. */
  lemma FirstActiveIsActive(s: Schedule, day: int, tries: nat)
    requires s.HasActiveDay() && tries >= 7
    ensures s.ActiveDay(FirstActive(s, day, tries))
    ensures FirstActive(s, day, tries) < day + 7
  {
    ActiveWithinAWeek(s, day);
  }

  lemma FirstActiveMonotone(s: Schedule, d: int, e: int)
    requires d <= e
    ensures FirstActive(s, d, 8) <= FirstActive(s, e, 8)
  {
    if s.HasActiveDay() {
      FirstActiveIsActive(s, d, 8);
      FirstActiveIsActive(s, e, 8);
    } else {
      NeverActive(s, d, 8);
      NeverActive(s, e, 8);
    }
  }

  /** With every day off the search runs its whole length. */
  lemma NeverActive(s: Schedule, day: int, tries: nat)
    requires !s.HasActiveDay()
    ensures FirstActive(s, day, tries) == day + tries
  {
    if FirstActive(s, day, tries) < day + tries {
      NoActiveDay(s, FirstActive(s, day, tries));
    }
  }

  // ----- scheduleDefer

  /** The next instant the account may act, when `now` is not one. */
  function Deferral(now: int, s: Schedule): Option<int> {
    if s.Open(now) then None
    else if !s.HasActiveDay() then Some(At(DayOf(now) + 7, s.StartHour()))
    else if s.ActiveDay(DayOf(now)) && HourOf(now) < s.StartHour() then Some(At(DayOf(now), s.StartHour()))
    else Some(At(FirstActive(s, DayOf(now) + 1, 8), s.StartHour()))
  }

  /** A deferral is the LEAST open instant: nothing earlier was missed. When no
      weekday is active nothing is ever open and the account is parked a week out. */
  lemma DeferralIsLeastOpen(now: int, s: Schedule)
    requires s.Valid()
    ensures Deferral(now, s).None? <==> s.Open(now)
    ensures Deferral(now, s).Some? ==> now < Deferral(now, s).value
    ensures Deferral(now, s).Some? && s.HasActiveDay() ==> s.Open(Deferral(now, s).value)
    ensures Deferral(now, s).Some? ==> forall t :: now <= t < Deferral(now, s).value ==> !s.Open(t)
  {
    HourBounds(now);
    if Deferral(now, s).Some? {
      var r := Deferral(now, s).value;
      var start := s.StartHour();
      ReadBackAt(DayOf(r), start);
      if s.HasActiveDay() {
        FirstActiveIsActive(s, DayOf(now) + 1, 8);
      }
      forall t | now <= t < r ensures !s.Open(t) {
        if !s.HasActiveDay() {
          NoActiveDay(s, DayOf(t));
        } else {
          ClosedBefore(now, s, t);
        }
      }
    }
  }

  lemma ClosedBefore(now: int, s: Schedule, t: int)
    requires s.Valid() && s.HasActiveDay() && Deferral(now, s).Some?
    requires now <= t < Deferral(now, s).value
    ensures !s.Open(t)
  {
    DayMonotone(now, t);
    HourBounds(t);
    HourBounds(now);
    var r := Deferral(now, s).value;
    DayMonotone(t, r);
    ReadBackAt(DayOf(r), s.StartHour());
    if s.ActiveDay(DayOf(now)) && HourOf(now) < s.StartHour() {
      assert DayOf(t) == DayOf(now);
    } else {
      var first := FirstActive(s, DayOf(now) + 1, 8);
      FirstActiveIsActive(s, DayOf(now) + 1, 8);
      ReadBackAt(first, s.StartHour());
      assert DayOf(t) <= first;
    }
  }

  /** Inside the window on a working day; day 0 was a Thursday, the fifth day of its week. */
  predicate InWindow(s: Schedule, t: int) {
    && (t / 86_400_000 + 4) % 7 in s.days
    && (s.hoursStart >= s.hoursEnd || s.hoursStart <= (t % 86_400_000) / 3_600_000 < s.hoursEnd)
  }

  lemma WindowIsOpen(s: Schedule, t: int)
    ensures s.Open(t) <==> InWindow(s, t)
  {
  }

  /** What a deferral is, in milliseconds: the first instant inside the window, or a week out. */
  ghost predicate DefersTo(now: int, s: Schedule, r: Option<int>) {
    && (r.None? <==> InWindow(s, now))
    && (r.Some? ==> now < r.value && forall t :: now <= t < r.value ==> !InWindow(s, t))
    && (r.Some? && !InWindow(s, r.value) ==>
          && (forall weekday :: 0 <= weekday < 7 ==> weekday !in s.days)
          && r.value == (now / 86_400_000 + 7) * 86_400_000 + (if s.hoursStart < s.hoursEnd then s.hoursStart else 0) * 3_600_000)
  }

  lemma DeferralDefersTo(now: int, s: Schedule)
    requires s.Valid()
    ensures DefersTo(now, s, Deferral(now, s))
  {
    DeferralIsLeastOpen(now, s);
    forall t ensures s.Open(t) <==> InWindow(s, t) {
      WindowIsOpen(s, t);
    }
  }

  /** The gate's search: walk forward at most eight candidate days. */
  method ScheduleDefer(now: int, s: Schedule) returns (r: Option<int>)
    requires s.Valid()
    ensures r == Deferral(now, s)
    ensures DefersTo(now, s, r)
  {
    DeferralDefersTo(now, s);
    r := WalkCandidates(now, s);
  }

  /** Test each candidate in turn; with every day off, park a week out. */
  method WalkCandidates(now: int, s: Schedule) returns (r: Option<int>)
    requires s.Valid()
    ensures r == Deferral(now, s)
  {
    var startHour := if s.HourGateOn() then s.hoursStart else 0;
    if s.ActiveDay(DayOf(now)) && s.HourOpen(HourOf(now)) {
      return None;
    }
    var today := DayOf(now);
    for i := 0 to 8
      invariant NoneAhead(now, s, i)
    {
      var cand := At(today + i, startHour);
      TryCandidate(now, s, i);
      if cand > now && s.ActiveDay(DayOf(cand)) {
        return Some(cand);
      }
    }
    SearchNeverMisses(now, s);
    return Some(At(today + 7, startHour));
  }

  /** A candidate that is active and still ahead is the deferral; any other leaves the search going. */
  lemma TryCandidate(now: int, s: Schedule, i: nat)
    requires s.Valid() && !s.Open(now) && i < 8 && NoneAhead(now, s, i)
    ensures var cand := At(DayOf(now) + i, s.StartHour());
            if cand > now && s.ActiveDay(DayOf(cand)) then Deferral(now, s) == Some(cand) else NoneAhead(now, s, i + 1)
  {
    ReadBackAt(DayOf(now) + i, s.StartHour());
    if At(DayOf(now) + i, s.StartHour()) > now && s.ActiveDay(DayOf(now) + i) {
      SearchFindsDeferral(now, s, i);
    }
  }

  /** None of the first i candidates is both active and still ahead. */
  ghost predicate NoneAhead(now: int, s: Schedule, i: nat) {
    forall d :: DayOf(now) <= d < DayOf(now) + i ==> At(d, s.StartHour()) <= now || !s.ActiveDay(d)
  }

  /** Some candidate among the eight is active and still ahead, unless every day is off. */
  lemma SomeCandidateAhead(now: int, s: Schedule)
    requires s.Valid() && s.HasActiveDay()
    ensures !NoneAhead(now, s, 8)
  {
    var d := FirstActive(s, DayOf(now) + 1, 8);
    FirstActiveIsActive(s, DayOf(now) + 1, 8);
    assert At(d, s.StartHour()) > now && s.ActiveDay(d) && DayOf(now) <= d < DayOf(now) + 8;
  }

  /** With every day off the search parks a week out. */
  lemma SearchNeverMisses(now: int, s: Schedule)
    requires s.Valid() && !s.Open(now) && NoneAhead(now, s, 8)
    ensures !s.HasActiveDay() && Deferral(now, s) == Some(At(DayOf(now) + 7, s.StartHour()))
  {
    if s.HasActiveDay() {
      SomeCandidateAhead(now, s);
    }
  }

  /** The first candidate that is active and still ahead is the deferral. */
  lemma SearchFindsDeferral(now: int, s: Schedule, i: nat)
    requires s.Valid() && !s.Open(now) && i < 8
    requires At(DayOf(now) + i, s.StartHour()) > now && s.ActiveDay(DayOf(now) + i)
    requires NoneAhead(now, s, i)
    ensures Deferral(now, s) == Some(At(DayOf(now) + i, s.StartHour()))
  {
    HourBounds(now);
    var today := DayOf(now);
    assert s.HasActiveDay() by {
      assert 0 <= Weekday(today + i) < 7;
    }
    if i == 0 {
      assert HourOf(now) < s.StartHour();
    } else {
      FirstAheadIsFirstActive(now, s, i);
      assert At(today, s.StartHour()) <= now || !s.ActiveDay(today);
    }
  }

  /** A first candidate after today is the first active day after today. */
  lemma FirstAheadIsFirstActive(now: int, s: Schedule, i: nat)
    requires s.Valid() && 0 < i < 8 && s.HasActiveDay() && s.ActiveDay(DayOf(now) + i) && NoneAhead(now, s, i)
    ensures FirstActive(s, DayOf(now) + 1, 8) == DayOf(now) + i
  {
    var today := DayOf(now);
    var first := FirstActive(s, today + 1, 8);
    FirstActiveIsActive(s, today + 1, 8);
    assert first <= today + i;
    if first < today + i {
      LaterDaysAreAhead(now, s, first);
    }
  }

  lemma LaterDaysAreAhead(now: int, s: Schedule, day: int)
    requires s.Valid() && DayOf(now) < day
    ensures now < At(day, s.StartHour())
  {
    HourBounds(now);
  }

  // ----- activeHoursDefer

  /** The older, day-blind rule: the next opening of an hour window run every day. */
  function ActiveHoursDefer(now: int, start: int, end: int): Option<int> {
    if start >= end then None
    else if start <= HourOf(now) < end then None
    else Some(At(DayOf(now) + (if HourOf(now) >= end then 1 else 0), start))
  }

  /** With all seven days active the two rules give the same answer. */
  lemma EveryDayScheduleIsActiveHours(now: int, s: Schedule)
    requires s.Valid() && (forall w :: 0 <= w < 7 ==> w in s.days)
    ensures Deferral(now, s) == ActiveHoursDefer(now, s.hoursStart, s.hoursEnd)
  {
    HourBounds(now);
    assert 0 in s.days && s.HasActiveDay();
    assert s.ActiveDay(DayOf(now)) by { assert 0 <= Weekday(DayOf(now)) < 7; }
    assert s.ActiveDay(DayOf(now) + 1) by { assert 0 <= Weekday(DayOf(now) + 1) < 7; }
  }

  // ----- dueAfterDelay

  /** When a delayed step becomes due; None means at once. */
  function Due(handledAt: int, delaySeconds: int, s: Schedule): Option<int> {
    if delaySeconds <= 0 then None
    else if delaySeconds < DAY_SECONDS then Some(handledAt + delaySeconds * 1000)
    else Some(At(FirstActive(s, DayOf(handledAt + delaySeconds * 1000), 8), s.hoursStart))
  }

  predicate Workday(s: Schedule, date: int) {
    (date + 4) % 7 in s.days
  }

  /** The first working date from one on; eight dates are looked at. */
  ghost predicate FirstWorkday(s: Schedule, from: int, date: int) {
    && from <= date <= from + 8
    && (forall d :: from <= d < date ==> !Workday(s, d))
    && (date < from + 8 ==> Workday(s, date))
  }

  /** The opening of the working window on a later date, the first working one at least the delay away. */
  ghost predicate OpensOn(now: int, delaySeconds: int, s: Schedule, at: int, date: int) {
    && now / 86_400_000 < date
    && FirstWorkday(s, (now + 1000 * delaySeconds) / 86_400_000, date)
    && at == date * 86_400_000 + s.hoursStart * 3_600_000
  }

  /** A due time by its delay, in milliseconds: at once, exactly that much later, or on a later morning. */
  ghost predicate DueBy(now: int, delaySeconds: int, s: Schedule, at: Option<int>) {
    if delaySeconds <= 0 then at == None
    else if delaySeconds < 86_400 then at == Some(now + 1000 * delaySeconds)
    else at.Some? && exists date :: OpensOn(now, delaySeconds, s, at.value, date)
  }

  lemma DueIsByDelay(now: int, delaySeconds: int, s: Schedule)
    ensures DueBy(now, delaySeconds, s, Due(now, delaySeconds, s))
  {
    if delaySeconds >= 86_400 {
      var from := (now + 1000 * delaySeconds) / 86_400_000;
      var date := FirstActive(s, DayOf(now + delaySeconds * 1000), 8);
      assert from > now / 86_400_000;
      assert forall d :: Workday(s, d) <==> s.ActiveDay(d);
      assert FirstWorkday(s, from, date);
      assert OpensOn(now, delaySeconds, s, Due(now, delaySeconds, s).value, date);
    }
  }

  /** A day-level delay snaps to the window start of the target day, then walks
      to the next active day. */
  method DueAfterDelay(handledAt: int, delaySeconds: int, s: Schedule) returns (r: Option<int>)
    requires s.Valid()
    ensures r == Due(handledAt, delaySeconds, s)
    ensures DueBy(handledAt, delaySeconds, s, r)
  {
    DueIsByDelay(handledAt, delaySeconds, s);
    r := SnapAndWalk(handledAt, delaySeconds, s);
  }

  method SnapAndWalk(handledAt: int, delaySeconds: int, s: Schedule) returns (r: Option<int>)
    requires s.Valid()
    ensures r == Due(handledAt, delaySeconds, s)
  {
    if delaySeconds <= 0 {
      return None;
    }
    var raw := handledAt + delaySeconds * 1000;
    if delaySeconds < DAY_SECONDS {
      return Some(raw);
    }
    var d := At(DayOf(raw), s.hoursStart);
    ReadBackAt(DayOf(raw), s.hoursStart);
    for i := 0 to 8
      invariant d == At(DayOf(raw) + i, s.hoursStart)
      invariant FirstActive(s, DayOf(raw), 8) == FirstActive(s, DayOf(raw) + i, 8 - i)
    {
      ReadBackAt(DayOf(raw) + i, s.hoursStart);
      if s.ActiveDay(DayOf(d)) {
        return Some(d);
      }
      d := At(DayOf(d) + 1, s.hoursStart);
    }
    return Some(d);
  }

  /** Any positive delay is strictly in the future. */
  lemma DueIsLater(handledAt: int, delaySeconds: int, s: Schedule)
    requires s.Valid() && delaySeconds > 0
    ensures handledAt < Due(handledAt, delaySeconds, s).value
    ensures delaySeconds >= DAY_SECONDS ==> DayOf(handledAt) < DayOf(Due(handledAt, delaySeconds, s).value)
  {
    if delaySeconds >= DAY_SECONDS {
      var raw := handledAt + delaySeconds * 1000;
      HourBounds(handledAt);
      DayMonotone(handledAt + DAY_MS, raw);
      ReadBackAt(FirstActive(s, DayOf(raw), 8), s.hoursStart);
    }
  }

  /** A day-level due time lands at the window start of the first active day on
      or after the raw target day, and the gate never pushes it further. */
  lemma DueLandsOnFirstOpenMorning(handledAt: int, delaySeconds: int, s: Schedule)
    requires s.Valid() && s.HasActiveDay() && delaySeconds >= DAY_SECONDS
    ensures var due := Due(handledAt, delaySeconds, s).value;
            var rawDay := DayOf(handledAt + delaySeconds * 1000);
            && s.ActiveDay(DayOf(due)) && HourOf(due) == s.hoursStart
            && rawDay <= DayOf(due) < rawDay + 7
            && (forall d :: rawDay <= d < DayOf(due) ==> !s.ActiveDay(d))
            && Deferral(due, s) == None
  {
    var rawDay := DayOf(handledAt + delaySeconds * 1000);
    FirstActiveIsActive(s, rawDay, 8);
    ReadBackAt(FirstActive(s, rawDay, 8), s.hoursStart);
  }

  /** Day-level delays keep their order. */
  lemma DueMonotone(handledAt: int, shorter: int, longer: int, s: Schedule)
    requires s.Valid() && DAY_SECONDS <= shorter <= longer
    ensures Due(handledAt, shorter, s).value <= Due(handledAt, longer, s).value
  {
    DayMonotone(handledAt + shorter * 1000, handledAt + longer * 1000);
    FirstActiveMonotone(s, DayOf(handledAt + shorter * 1000), DayOf(handledAt + longer * 1000));
  }

  /** Order is NOT kept across the one-day boundary. An exact delay overtakes a
      longer day-level one precisely when the day-level delay lands on tomorrow,
      tomorrow is active, and the exact instant falls after its window start. */
  lemma DelayBoundaryInverts(handledAt: int, exact: int, dayLevel: int, s: Schedule)
    requires s.Valid() && s.HasActiveDay() && 0 < exact < DAY_SECONDS <= dayLevel
    ensures var tomorrow := DayOf(handledAt) + 1;
            Due(handledAt, dayLevel, s).value < Due(handledAt, exact, s).value <==>
            && DayOf(handledAt + dayLevel * 1000) == tomorrow
            && s.ActiveDay(tomorrow)
            && At(tomorrow, s.hoursStart) < handledAt + exact * 1000
  {
    var tomorrow := DayOf(handledAt) + 1;
    var rawDay := DayOf(handledAt + dayLevel * 1000);
    DayMonotone(handledAt + DAY_MS, handledAt + dayLevel * 1000);
    DayMonotone(handledAt + exact * 1000, handledAt + DAY_MS);
    HourBounds(handledAt + exact * 1000);
    FirstActiveIsActive(s, rawDay, 8);
  }

  /** The inversion is real: at 15:00, "in 86400 seconds" is due before "in 86399 seconds". */
  lemma DelayBoundaryExample()
    ensures var everyDay := Schedule(8, 20, {0, 1, 2, 3, 4, 5, 6});
            Due(At(0, 15), DAY_SECONDS, everyDay).value < Due(At(0, 15), DAY_SECONDS - 1, everyDay).value
  {
    var everyDay := Schedule(8, 20, {0, 1, 2, 3, 4, 5, 6});
    assert everyDay.ActiveDay(1) && everyDay.HasActiveDay();
    DelayBoundaryInverts(At(0, 15), DAY_SECONDS - 1, DAY_SECONDS, everyDay);
  }
}
