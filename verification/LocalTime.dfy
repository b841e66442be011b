/** Wall-clock arithmetic shared by every calendar rule.

An instant is a whole number of milliseconds counted from a local midnight, so
the host's fixed offset from UTC is already applied. Days are numbered by
Euclidean division, which makes instants before day 0 behave like any other. */
module LocalTime {

  const HOUR_MS := 3_600_000
  const DAY_MS := 86_400_000
  const DAY_SECONDS := 86_400

  /** The calendar day an instant falls in. */
  function DayOf(t: int): int {
    t / DAY_MS
  }

  /** The wall-clock hour of an instant, 0 to 23. */
  function HourOf(t: int): int {
    (t % DAY_MS) / HOUR_MS
  }

  /** 0 is Sunday. Day 0 is 1 January 1970, a Thursday. */
  function Weekday(day: int): int {
    (day + 4) % 7
  }

  /** The instant at which `hour` o'clock strikes on `day`. */
  function At(day: int, hour: int): int {
    day * DAY_MS + hour * HOUR_MS
  }

  /** The local midnight that opens the calendar day of `t`. */
  function StartOfLocalDay(t: int): int {
    At(DayOf(t), 0)
  }

  /** Start of the next UTC day, for a host whose local clock runs `offset` ahead of UTC. */
  function NextUtcDay(t: int, offset: int): int {
    At(DayOf(t - offset) + 1, 0) + offset
  }

  lemma ReadBackAt(day: int, hour: int)
    requires 0 <= hour < 24
    ensures DayOf(At(day, hour)) == day && HourOf(At(day, hour)) == hour
  {
  }

  lemma HourBounds(t: int)
    ensures 0 <= HourOf(t) < 24
    ensures At(DayOf(t), HourOf(t)) <= t < At(DayOf(t), HourOf(t) + 1)
  {
  }

  lemma DayMonotone(t: int, u: int)
    requires t <= u
    ensures DayOf(t) <= DayOf(u)
    ensures DayOf(t) == DayOf(u) ==> HourOf(t) <= HourOf(u)
  {
  }
}
