/** The scheduler's working window, searched in whole-hour steps. */
module WorkingHours {
  import opened LocalTime

  /** Start and end hours and the weekdays worked, as configured: any integers. */
  datatype Window = Window(startHour: int, endHour: int, workingDays: set<int>) {

    predicate OpenAt(t: int) {
      Weekday(DayOf(t)) in workingDays && startHour <= HourOf(t) < endHour
    }

    /** Some hour of some weekday is worked. */
    ghost predicate NonEmpty() {
      && (exists d :: 0 <= d < 7 && d in workingDays)
      && startHour < endHour && startHour < 24 && endHour > 0
    }
  }

  const SEARCH_STEPS := 24 * 14

  /** Hours are numbered through, so the wall clock is a function of the number. */
  function HourNo(t: int): int {
    t / HOUR_MS
  }

  function HourOpen(w: Window, n: int): bool {
    Weekday(n / 24) in w.workingDays && w.startHour <= n % 24 < w.endHour
  }

  /** A working weekday, between the start hour and the end hour; day 0 was a Thursday. */
  predicate InWorkingHours(w: Window, t: int) {
    (t / 86_400_000 + 4) % 7 in w.workingDays && w.startHour <= (t % 86_400_000) / 3_600_000 < w.endHour
  }

  lemma OpenByHour(w: Window, t: int)
    ensures w.OpenAt(t) <==> InWorkingHours(w, t)
    ensures w.OpenAt(t) <==> HourOpen(w, HourNo(t))
    ensures DayOf(t) == HourNo(t) / 24 && HourOf(t) == HourNo(t) % 24
  {
    assert t == DAY_MS * DayOf(t) + t % DAY_MS;
    assert HourNo(t) == 24 * DayOf(t) + HourOf(t);
  }

  /** From any hour an open one comes within a week. */
  lemma OpenWithinAWeek(w: Window, n: int) returns (k: nat)
    requires w.NonEmpty()
    ensures k < 8 * 24 && HourOpen(w, n + k)
  {
    var d :| 0 <= d < 7 && d in w.workingDays;
    var today := n / 24;
    var ahead := (d - Weekday(today + 1)) % 7;
    var day := today + 1 + ahead;
    var hour := if w.startHour < 0 then 0 else w.startHour;
    assert Weekday(day) == d;
    k := day * 24 + hour - n;
    assert n + k == day * 24 + hour && (n + k) / 24 == day && (n + k) % 24 == hour;
  }

  /** The least open hour number at or after n. */
  ghost predicate NextOpenHour(w: Window, n: int, m: int) {
    n <= m && HourOpen(w, m) && forall j :: n <= j < m ==> !HourOpen(w, j)
  }

  /** What the search promises: an open instant, a whole number of hours on, with no
      open hour in between. */
  ghost predicate IsNextWorking(w: Window, from: int, r: int) {
    w.OpenAt(r) && from <= r && (r - from) % HOUR_MS == 0 && NextOpenHour(w, HourNo(from), HourNo(r))
  }

  /** So it is never before the first open instant, and less than an hour after it. */
  lemma LessThanAnHourLate(w: Window, from: int, r: int, t: int)
    requires IsNextWorking(w, from, r) && from <= t && InWorkingHours(w, t)
    ensures from <= r < t + 3_600_000 && InWorkingHours(w, r) && (r - from) % 3_600_000 == 0
  {
    OpenByHour(w, r);
    OpenByHour(w, t);
    HoursMonotone(from, t);
    assert HourNo(r) <= HourNo(t);
    if HourNo(t) > HourNo(r) {
      assert HourNo(t) * HOUR_MS <= t && r < (HourNo(r) + 1) * HOUR_MS;
    }
  }

  lemma HoursMonotone(s: int, t: int)
    requires s <= t
    ensures HourNo(s) <= HourNo(t)
  {
  }

  /** An instant already open is returned as it is. */
  lemma OpenStaysPut(w: Window, from: int, r: int)
    requires IsNextWorking(w, from, r) && InWorkingHours(w, from)
    ensures r == from
  {
    OpenByHour(w, from);
    assert HourNo(r) == HourNo(from);
    assert -HOUR_MS < r - from < HOUR_MS;
  }

  /** The answer is unique. */
  lemma NextWorkingIsUnique(w: Window, from: int, r: int, s: int)
    requires IsNextWorking(w, from, r) && IsNextWorking(w, from, s)
    ensures r == s
  {
    assert HourNo(r) == HourNo(s);
    assert -HOUR_MS < r - s < HOUR_MS && (r - s) % HOUR_MS == 0;
  }

  lemma WholeHoursOn(from: int, k: int)
    ensures HourNo(from + k * HOUR_MS) == HourNo(from) + k
  {
  }

  /** Step in whole hours until the window is open; a working day not yet begun is
      entered at its start hour. The bound is never what ends a search that can succeed. */
  method NextWorkingInstant(from: int, w: Window) returns (cursor: int, ghost steps: nat)
    ensures w.NonEmpty() ==> IsNextWorking(w, from, cursor) && InWorkingHours(w, cursor) && steps < 8 * 24
    ensures cursor >= from
  {
    cursor, steps := from, 0;
    ghost var hours: nat := 0;
    ghost var open: nat := 0;
    if w.NonEmpty() {
      open := OpenWithinAWeek(w, HourNo(from));
    }
    for i := 0 to SEARCH_STEPS
      invariant steps == i <= hours && cursor == from + hours * HOUR_MS
      invariant forall j :: HourNo(from) <= j < HourNo(from) + hours ==> !HourOpen(w, j)
      invariant w.NonEmpty() ==> hours <= open
    {
      WholeHoursOn(from, hours);
      OpenByHour(w, cursor);
      if w.OpenAt(cursor) {
        return;
      }
      var isWorkingDay := Weekday(DayOf(cursor)) in w.workingDays;
      if isWorkingDay && HourOf(cursor) < w.startHour {
        ghost var n, ahead := HourNo(cursor), w.startHour - HourOf(cursor);
        if w.NonEmpty() {
          SameDayClosed(w, n, ahead);
        } else {
          EmptyIsClosed(w);
        }
        cursor := cursor + (w.startHour - HourOf(cursor)) * HOUR_MS;
        hours := hours + ahead;
      } else {
        cursor := cursor + HOUR_MS;
        hours := hours + 1;
      }
      steps := steps + 1;
    }
  }

  /** Before the start hour nothing of the day is open. */
  lemma SameDayClosed(w: Window, n: int, ahead: nat)
    requires n % 24 + ahead == w.startHour < 24
    ensures forall j :: n <= j < n + ahead ==> !HourOpen(w, j)
  {
    forall j | n <= j < n + ahead ensures !HourOpen(w, j) {
      assert j == (n / 24) * 24 + (n % 24 + (j - n));
      assert j % 24 == n % 24 + (j - n);
    }
  }

  lemma OpenMeansNonEmpty(w: Window, j: int)
    ensures HourOpen(w, j) ==> w.NonEmpty()
  {
    if HourOpen(w, j) {
      assert 0 <= Weekday(j / 24) < 7 && Weekday(j / 24) in w.workingDays;
    }
  }

  lemma EmptyIsClosed(w: Window)
    requires !w.NonEmpty()
    ensures forall j :: !HourOpen(w, j)
  {
    forall j ensures !HourOpen(w, j) {
      OpenMeansNonEmpty(w, j);
    }
  }
}
