/** Rate limiting over whole runs of one account.

A run interleaves gate checks, mints, page drives that land or are stranded,
operator pauses and process restarts. The gate decides from pruned counters, and
the stamp an action leaves is later than the decision that allowed it; the
theorems say the limits hold of the action LOG all the same. */
module ActionRuns {
  import opened Wrappers
  import opened LocalTime
  import opened Actions
  import opened SafetyCounters
  import opened SafetyGates

  /** An action between its mint and its outcome: when the gate allowed it, and
      when the pacer slot was reserved. Its row is the last one, still pending. */
  datatype InFlight = InFlight(decidedAt: int, stampedAt: int)

  /** One account: its stored rows and pause log, and the live counters over them. */
  datatype Ledger = Ledger(
    clock: int,
    rows: seq<ActionRow>,
    pauseLog: seq<PauseEvent>,
    weekly: seq<int>,
    daily: StampTable,
    last: Option<int>,
    paused: bool,
    inFlight: Option<InFlight>)

  datatype Event =
    | Look(at: int)                            // a check whose answer is not acted on
    | Mint(createdAt: int, at: int, stampedAt: int, acct: Account, kind: ActionType, gap: int, outstanding: nat)
    | Land(at: int, result: ActionResult)      // the drive finished, or threw
    | Charge(at: int)                          // a withdrawal outside the action log stamps the pacer
    | Strand(at: int)                          // no page: the row stays pending
    | Pause(at: int)
    | Resume(at: int)
    | Restart(at: int)
    | Reclaim(at: int, olderThan: int)         // boot deletes the rows earlier processes left pending
  {
    function End(): int {
      if Mint? then stampedAt else at
    }
  }

  /** The fixed configuration of a run, and an upper bound on every cap any state
      or operator edit gives the account during it. */
  datatype Env = Env(cfg: SafetyConfig, capBound: map<ActionType, nat>) {
    function Bound(kind: ActionType): nat {
      if kind in capBound then capBound[kind] else 0
    }
  }

  // ----- one step

  function ReadingOf(s: Ledger, kind: ActionType, at: int, outstanding: nat): Reading {
    Reading(s.paused, CountFrom(StampsFor(s.daily, kind), StartOfLocalDay(at)), CountFrom(s.weekly, WeekStart(at)),
            outstanding, s.last)
  }

  function Verdict(env: Env, s: Ledger, e: Event): Decision
    requires e.Mint?
  {
    Decide(env.cfg, e.acct, e.kind, e.at, ReadingOf(s, e.kind, e.at, e.outstanding), e.gap)
  }

  /** The counters after a read at `at`: each list kept as it was or pruned. */
  ghost predicate MaybePruned(s: Ledger, t: Ledger, at: int) {
    && t.weekly in {s.weekly, KeepFrom(s.weekly, WeekStart(at))}
    && PrunedTable(s.daily, t.daily, StartOfLocalDay(at))
  }

  /** What the environment is assumed to do. Clocks do not run backwards; the
      jittered gap is at least the minimum; caps stay within the bound; pause
      decisions have increasing timestamps; when a mint is attempted, no drive
      already under way is older than the minimum gap; and rows are reclaimed only
      when older than the drive under way, if there is one. */
  predicate Admissible(env: Env, s: Ledger, e: Event) {
    match e
    case Mint(createdAt, at, stampedAt, acct, kind, gap, _) =>
      && s.clock <= createdAt <= at <= stampedAt
      && ValidHours(env.cfg, acct)
      && env.cfg.minActionGapMs <= gap
      && CapFor(env.cfg, acct, kind) <= env.Bound(kind)
      && (s.inFlight.Some? ==> at < s.inFlight.value.stampedAt + env.cfg.minActionGapMs)
    case Land(at, result) => s.clock <= at && s.inFlight.Some? && result != Pending
    case Strand(at) => s.clock <= at && s.inFlight.Some?
    case Pause(at) => s.clock <= at && (s.pauseLog != [] ==> s.pauseLog[|s.pauseLog| - 1].ts < at)
    case Resume(at) => s.clock <= at && (s.pauseLog != [] ==> s.pauseLog[|s.pauseLog| - 1].ts < at)
    case Look(at) => s.clock <= at
    case Charge(at) => s.clock <= at
    case Restart(at) => s.clock <= at
    case Reclaim(at, olderThan) =>
      s.clock <= at && (s.inFlight.Some? && s.rows != [] ==> olderThan < s.rows[|s.rows| - 1].scheduledAt)
  }

  function Later(last: Option<int>, at: int): Option<int> {
    Some(if last.Some? then Max(at, last.value) else at)
  }

  function Settled(r: ActionRow, result: ActionResult, at: int): ActionRow {
    r.(result := result, executedAt := Some(at))
  }

  function AfterReclaim(s: Ledger, at: int, olderThan: int): Ledger {
    s.(clock := at, rows := Reclaimed(s.rows, olderThan))
  }

  /** One transition. Only the pruning is left open. */
  ghost predicate Step(env: Env, s: Ledger, e: Event, t: Ledger) {
    && Admissible(env, s, e)
    && t.clock == e.End()
    && match e
       case Look(at) =>
         && MaybePruned(s, t, at)
         && t.rows == s.rows && t.pauseLog == s.pauseLog
         && t.last == s.last && t.paused == s.paused && t.inFlight == s.inFlight
       case Mint(createdAt, at, stampedAt, acct, kind, gap, outstanding) =>
         && MaybePruned(s, t, at)
         && t.pauseLog == s.pauseLog && t.paused == s.paused
         && if Verdict(env, s, e) == Allow then
              && t.rows == s.rows + [ActionRow(kind, createdAt, None, Pending)]
              && t.last == Later(s.last, stampedAt)
              && t.inFlight == Some(InFlight(at, stampedAt))
            else
              t.rows == s.rows && t.last == s.last && t.inFlight == s.inFlight
       case Land(at, result) =>
         && |s.rows| > 0
         && var row := Settled(s.rows[|s.rows| - 1], result, at);
         && t.rows == s.rows[..|s.rows| - 1] + [row]
         && t.pauseLog == s.pauseLog && t.paused == s.paused && t.inFlight == None
         && t.last == Later(s.last, at)
         && t.weekly == (if result == Success && row.kind == Connect then s.weekly + [at] else s.weekly)
         && forall k :: StampsFor(t.daily, k)
                     == if result == Success && row.kind == k then StampsFor(s.daily, k) + [at] else StampsFor(s.daily, k)
       case Charge(at) => t == s.(clock := at, last := Later(s.last, at))
       case Strand(_) => t == s.(clock := e.End(), inFlight := None)
       case Pause(at) => t == s.(clock := at, paused := true, pauseLog := s.pauseLog + [PauseEvent(true, at)])
       case Resume(at) => t == s.(clock := at, paused := false, pauseLog := s.pauseLog + [PauseEvent(false, at)])
       case Restart(at) =>
         && t.rows == s.rows && t.pauseLog == s.pauseLog && t.inFlight == None
         && t.weekly == Stamps(s.rows, Connect)
         && HoldsToday(t.daily, s.rows, StartOfLocalDay(at))
         && t.last == LatestAction(s.rows)
         && t.paused == PausedFrom(s.pauseLog)
       case Reclaim(at, olderThan) => t == AfterReclaim(s, at, olderThan)
  }

  ghost predicate Initial(s: Ledger) {
    s.rows == [] && s.pauseLog == [] && s.weekly == [] && (forall k :: StampsFor(s.daily, k) == [])
    && s.last == None && !s.paused && s.inFlight == None
  }

  /** states[i+1] follows states[i] by events[i]. */
  ghost predicate Run(env: Env, states: seq<Ledger>, events: seq<Event>) {
    && |states| == |events| + 1
    && Initial(states[0])
    && forall i :: 0 <= i < |events| ==> Step(env, states[i], events[i], states[i + 1])
  }

  // ----- what every step keeps

  /** The log lies in the past, the pacer is at or after all of it, and an action
      in flight was decided after everything else in the log had happened. */
  ghost predicate Ordered(s: Ledger) {
    && RowsUpTo(s.rows, s.clock)
    && (s.last.Some? ==> s.last.value <= s.clock && RowsUpTo(s.rows, s.last.value))
    && (s.last.None? ==> s.rows == [])
    && (s.inFlight.Some? ==>
          && s.inFlight.value.decidedAt <= s.inFlight.value.stampedAt <= s.clock
          && s.last.Some? && s.inFlight.value.stampedAt <= s.last.value
          && |s.rows| > 0
          && s.rows[|s.rows| - 1].result == Pending && s.rows[|s.rows| - 1].executedAt.None?
          && RowsUpTo(s.rows, s.inFlight.value.decidedAt))
  }

  /** The live counters answer every present and future query as a plain count of the log would. */
  ghost predicate CountersMatchLog(s: Ledger) {
    && (forall lo :: WeekStart(s.clock) <= lo ==> CountFrom(s.weekly, lo) == CountFrom(Stamps(s.rows, Connect), lo))
    && (forall k, lo :: StartOfLocalDay(s.clock) <= lo ==>
          CountFrom(StampsFor(s.daily, k), lo) == CountFrom(Stamps(s.rows, k), lo))
  }

  /** Successful connects in the week (hi - 7 days, hi]. */
  function InWeek(stamps: seq<int>, hi: int): nat {
    CountIn(stamps, hi - SEVEN_DAYS_MS, hi)
  }

  ghost predicate WeeklyBound(env: Env, s: Ledger) {
    && (forall hi :: InWeek(Stamps(s.rows, Connect), hi) <= env.cfg.weeklyInviteCeiling)
    && (s.inFlight.Some? && s.rows != [] && s.rows[|s.rows| - 1].kind == Connect ==>
          CountFrom(Stamps(s.rows, Connect), WeekStart(s.inFlight.value.decidedAt)) < env.cfg.weeklyInviteCeiling)
  }

  /** Successes of a kind on one local calendar day. */
  function OnDay(rows: seq<ActionRow>, kind: ActionType, day: int): nat {
    CountIn(Stamps(rows, kind), At(day, 0) - 1, At(day + 1, 0) - 1)
  }

  ghost predicate DailyBound(env: Env, s: Ledger) {
    && (forall k, day :: OnDay(s.rows, k, day) <= env.Bound(k))
    && (s.inFlight.Some? && s.rows != [] ==>
          var k := s.rows[|s.rows| - 1].kind;
          CountFrom(Stamps(s.rows, k), StartOfLocalDay(s.inFlight.value.decidedAt)) < env.Bound(k))
  }

  /** Consecutive instants are at least `gap` apart. */
  ghost predicate Spaced(xs: seq<int>, gap: int) {
    forall i :: 0 <= i < |xs| - 1 ==> xs[i] + gap <= xs[i + 1]
  }

  ghost predicate SpacingBound(env: Env, s: Ledger) {
    var done := Completions(s.rows);
    && Spaced(done, env.cfg.minActionGapMs)
    && (s.inFlight.Some? && done != [] ==>
          done[|done| - 1] + env.cfg.minActionGapMs <= s.inFlight.value.decidedAt)
  }

  ghost predicate StrictTimes(log: seq<PauseEvent>) {
    forall i, j :: 0 <= i < j < |log| ==> log[i].ts < log[j].ts
  }

  /** Live, an account is paused exactly when its last decision was a pause. */
  ghost predicate PauseMatchesLog(s: Ledger) {
    StrictTimes(s.pauseLog) && (s.paused <==> s.pauseLog != [] && s.pauseLog[|s.pauseLog| - 1].paused)
  }

  /** While a drive is under way, the reserved pacer slot refuses every overlapping mint. */
  lemma ReservationExcludesOverlap(env: Env, s: Ledger, e: Event)
    requires Ordered(s) && s.inFlight.Some? && e.Mint? && Admissible(env, s, e)
    ensures Verdict(env, s, e) != Allow
  {
    AllowedMeans(env.cfg, e.acct, e.kind, e.at, ReadingOf(s, e.kind, e.at, e.outstanding), e.gap);
  }

  lemma OrderedStep(env: Env, s: Ledger, e: Event, t: Ledger)
    requires Step(env, s, e, t) && Ordered(s)
    ensures Ordered(t)
  {
    if e.Mint? && s.inFlight.Some? {
      ReservationExcludesOverlap(env, s, e);
    } else if e.Reclaim? {
      ReclaimedOrdered(s, e.at, e.olderThan, t);
    }
  }

  lemma ReclaimedOrdered(s: Ledger, at: int, olderThan: int, t: Ledger)
    requires Ordered(s) && s.clock <= at && t == AfterReclaim(s, at, olderThan)
    requires s.inFlight.Some? ==> olderThan < s.rows[|s.rows| - 1].scheduledAt
    ensures Ordered(t)
  {
    ReclaimedUpTo(s.rows, olderThan, s.clock);
    if s.last.Some? {
      ReclaimedUpTo(s.rows, olderThan, s.last.value);
    }
    if s.inFlight.Some? {
      ReclaimKeepsLast(s.rows, olderThan);
      ReclaimedUpTo(s.rows, olderThan, s.inFlight.value.decidedAt);
    }
  }

  lemma SettleRow(s: Ledger, result: ActionResult, at: int, kind: ActionType)
    requires |s.rows| > 0 && s.rows[|s.rows| - 1].result == Pending && s.rows[|s.rows| - 1].executedAt.None?
    requires result != Pending
    ensures var row := Settled(s.rows[|s.rows| - 1], result, at);
            var rows := s.rows[..|s.rows| - 1] + [row];
            && Stamps(rows, kind) == Stamps(s.rows, kind) + (if row.kind == kind && result == Success then [at] else [])
            && Completions(rows) == Completions(s.rows) + [at]
  {
    var init := s.rows[..|s.rows| - 1];
    assert s.rows == init + [s.rows[|s.rows| - 1]];
    AppendRow(init, s.rows[|s.rows| - 1], kind);
    AppendRow(init, Settled(s.rows[|s.rows| - 1], result, at), kind);
    assert Stamps(init, kind) + [] == Stamps(init, kind);
    assert Completions(init) + [] == Completions(init);
  }

  lemma NewPendingRow(s: Ledger, e: Event, kind: ActionType)
    requires e.Mint?
    ensures var rows := s.rows + [ActionRow(e.kind, e.createdAt, None, Pending)];
            Stamps(rows, kind) == Stamps(s.rows, kind) && Completions(rows) == Completions(s.rows)
  {
    AppendRow(s.rows, ActionRow(e.kind, e.createdAt, None, Pending), kind);
    assert Stamps(s.rows, kind) + [] == Stamps(s.rows, kind);
    assert Completions(s.rows) + [] == Completions(s.rows);
  }

  /** Pruning at `at` keeps every count from `later` on. */
  lemma PrunedCounts(xs: seq<int>, ys: seq<int>, lo: int, later: int)
    requires ys in {xs, KeepFrom(xs, lo)} && lo <= later
    ensures CountFrom(ys, later) == CountFrom(xs, later)
  {
    PruningKeepsLaterCounts(xs, lo, later);
  }

  lemma CountersMatchLogStep(env: Env, s: Ledger, e: Event, t: Ledger)
    requires Step(env, s, e, t) && Ordered(s) && CountersMatchLog(s)
    ensures CountersMatchLog(t)
  {
    DayMonotone(s.clock, e.End());
    forall lo | WeekStart(t.clock) <= lo
      ensures CountFrom(t.weekly, lo) == CountFrom(Stamps(t.rows, Connect), lo)
    {
      WeeklyCountStep(env, s, e, t, lo);
    }
    forall k, lo | StartOfLocalDay(t.clock) <= lo
      ensures CountFrom(StampsFor(t.daily, k), lo) == CountFrom(Stamps(t.rows, k), lo)
    {
      DailyCountStep(env, s, e, t, k, lo);
    }
  }

  lemma WeeklyCountStep(env: Env, s: Ledger, e: Event, t: Ledger, lo: int)
    requires Step(env, s, e, t) && Ordered(s) && CountersMatchLog(s) && WeekStart(t.clock) <= lo
    ensures CountFrom(t.weekly, lo) == CountFrom(Stamps(t.rows, Connect), lo)
  {
    assert CountFrom(s.weekly, lo) == CountFrom(Stamps(s.rows, Connect), lo);
    match e
    case Look(at) => PrunedCounts(s.weekly, t.weekly, WeekStart(at), lo);
    case Mint(_, at, _, _, _, _, _) =>
      PrunedCounts(s.weekly, t.weekly, WeekStart(at), lo);
      NewPendingRow(s, e, Connect);
    case Land(at, result) =>
      SettleRow(s, result, at, Connect);
      SameAppend(s.weekly, Stamps(s.rows, Connect), at, lo);
    case Reclaim(_, olderThan) => ReclaimKeepsStamps(s.rows, olderThan, Connect);
    case _ =>
  }

  lemma DailyCountStep(env: Env, s: Ledger, e: Event, t: Ledger, k: ActionType, lo: int)
    requires Step(env, s, e, t) && Ordered(s) && CountersMatchLog(s) && StartOfLocalDay(t.clock) <= lo
    ensures CountFrom(StampsFor(t.daily, k), lo) == CountFrom(Stamps(t.rows, k), lo)
  {
    DayMonotone(s.clock, e.End());
    match e
    case Look(at) => DailyPruned(s, t, at, k, lo);
    case Mint(_, _, _, _, _, _, _) => DailyCountMint(env, s, e, t, k, lo);
    case Land(at, result) =>
      SettleRow(s, result, at, k);
      SameAppend(StampsFor(s.daily, k), Stamps(s.rows, k), at, lo);
    case Restart(at) => PruningKeepsLaterCounts(Stamps(s.rows, k), StartOfLocalDay(at), lo);
    case Reclaim(_, olderThan) => ReclaimKeepsStamps(s.rows, olderThan, k);
    case _ =>
  }

  lemma DailyPruned(s: Ledger, t: Ledger, at: int, k: ActionType, lo: int)
    requires PrunedTable(s.daily, t.daily, StartOfLocalDay(at)) && StartOfLocalDay(at) <= lo
    ensures CountFrom(StampsFor(t.daily, k), lo) == CountFrom(StampsFor(s.daily, k), lo)
  {
    PrunedCounts(StampsFor(s.daily, k), StampsFor(t.daily, k), StartOfLocalDay(at), lo);
  }

  lemma DailyCountMint(env: Env, s: Ledger, e: Event, t: Ledger, k: ActionType, lo: int)
    requires Step(env, s, e, t) && e.Mint? && CountersMatchLog(s) && StartOfLocalDay(t.clock) <= lo
    ensures CountFrom(StampsFor(t.daily, k), lo) == CountFrom(Stamps(t.rows, k), lo)
  {
    DayMonotone(s.clock, e.stampedAt);
    DayMonotone(e.at, e.stampedAt);
    DailyPruned(s, t, e.at, k, lo);
    NewPendingRow(s, e, k);
  }

  lemma SameAppend(xs: seq<int>, ys: seq<int>, at: int, lo: int)
    requires CountFrom(xs, lo) == CountFrom(ys, lo)
    ensures CountFrom(xs + [at], lo) == CountFrom(ys + [at], lo)
    ensures ys + [] == ys
  {
    AppendCounts(xs, at, lo, lo);
    AppendCounts(ys, at, lo, lo);
  }

  /** The heart of the rolling bound: a stamp no earlier than the decision, added
      when the week ending at the decision held fewer than `ceiling`, leaves every week within it. */
  lemma RollingAppend(xs: seq<int>, decidedAt: int, at: int, ceiling: nat, hi: int)
    requires NoneAfter(xs, decidedAt) && decidedAt <= at
    requires CountFrom(xs, WeekStart(decidedAt)) < ceiling
    requires InWeek(xs, hi) <= ceiling
    ensures InWeek(xs + [at], hi) <= ceiling
  {
    AppendCounts(xs, at, hi - SEVEN_DAYS_MS, hi);
    if at <= hi {
      WindowIsCountFrom(xs, decidedAt - SEVEN_DAYS_MS, decidedAt);
      NarrowerWindow(xs, decidedAt - SEVEN_DAYS_MS, decidedAt, hi - SEVEN_DAYS_MS, hi);
    }
  }

  lemma WeeklyBoundStep(env: Env, s: Ledger, e: Event, t: Ledger)
    requires Step(env, s, e, t) && Ordered(s) && CountersMatchLog(s) && WeeklyBound(env, s)
    ensures WeeklyBound(env, t)
  {
    match e
    case Mint(_, _, _, _, _, _, _) => WeeklyMint(env, s, e, t);
    case Land(_, _) => WeeklyLand(env, s, e, t);
    case Reclaim(_, _) => WeeklyReclaim(env, s, e, t);
    case _ =>
  }

  lemma WeeklyReclaim(env: Env, s: Ledger, e: Event, t: Ledger)
    requires Step(env, s, e, t) && e.Reclaim? && Ordered(s) && WeeklyBound(env, s)
    ensures WeeklyBound(env, t)
  {
    ReclaimKeepsStamps(s.rows, e.olderThan, Connect);
    assert Stamps(t.rows, Connect) == Stamps(s.rows, Connect) && t.inFlight == s.inFlight;
    if s.inFlight.Some? {
      ReclaimKeepsLast(s.rows, e.olderThan);
    }
    WeeklyAlike(env, s, t);
  }

  lemma WeeklyAlike(env: Env, s: Ledger, t: Ledger)
    requires WeeklyBound(env, s) && Stamps(t.rows, Connect) == Stamps(s.rows, Connect) && t.inFlight == s.inFlight
    requires t.inFlight.Some? ==>
               t.rows != [] && s.rows != [] && t.rows[|t.rows| - 1].kind == s.rows[|s.rows| - 1].kind
    ensures WeeklyBound(env, t)
  {
  }

  /** A mint adds no stamp, and was only allowed with room in the week it was decided in. */
  lemma WeeklyMint(env: Env, s: Ledger, e: Event, t: Ledger)
    requires Step(env, s, e, t) && e.Mint? && CountersMatchLog(s) && WeeklyBound(env, s)
    ensures WeeklyBound(env, t)
  {
    NewPendingRow(s, e, Connect);
    AllowedMeans(env.cfg, e.acct, e.kind, e.at, ReadingOf(s, e.kind, e.at, e.outstanding), e.gap);
  }

  lemma WeeklyLand(env: Env, s: Ledger, e: Event, t: Ledger)
    requires Step(env, s, e, t) && e.Land? && Ordered(s) && WeeklyBound(env, s)
    ensures WeeklyBound(env, t)
  {
    SettleRow(s, e.result, e.at, Connect);
    var xs := Stamps(s.rows, Connect);
    assert xs + [] == xs;
    if Stamps(t.rows, Connect) != xs {
      StampsComeFromRows(s.rows, Connect, s.inFlight.value.decidedAt);
      forall hi ensures InWeek(xs + [e.at], hi) <= env.cfg.weeklyInviteCeiling {
        RollingAppend(xs, s.inFlight.value.decidedAt, e.at, env.cfg.weeklyInviteCeiling, hi);
      }
    }
  }

  /** A calendar day: either the decision fell on it, and then it had room, or the
      stamp is the first of its day. */
  lemma DayAppend(xs: seq<int>, decidedAt: int, at: int, cap: nat, day: int)
    requires NoneAfter(xs, decidedAt) && decidedAt <= at
    requires CountFrom(xs, StartOfLocalDay(decidedAt)) < cap
    requires CountIn(xs, At(day, 0) - 1, At(day + 1, 0) - 1) <= cap
    ensures CountIn(xs + [at], At(day, 0) - 1, At(day + 1, 0) - 1) <= cap
  {
    AppendCounts(xs, at, At(day, 0) - 1, At(day + 1, 0) - 1);
    if DayOf(at) == day {
      DayMonotone(decidedAt, at);
      var from := StartOfLocalDay(decidedAt) - 1;
      HourBounds(decidedAt);
      WindowIsCountFrom(xs, from, decidedAt);
      NarrowerWindow(xs, from, decidedAt, At(day, 0) - 1, At(day + 1, 0) - 1);
    }
  }

  lemma DailyBoundStep(env: Env, s: Ledger, e: Event, t: Ledger)
    requires Step(env, s, e, t) && Ordered(s) && CountersMatchLog(s) && DailyBound(env, s)
    ensures DailyBound(env, t)
  {
    forall k, day ensures OnDay(t.rows, k, day) <= env.Bound(k) {
      OneDayStep(env, s, e, t, k, day);
    }
    if e.Mint? {
      NewPendingRow(s, e, e.kind);
      AllowedMeans(env.cfg, e.acct, e.kind, e.at, ReadingOf(s, e.kind, e.at, e.outstanding), e.gap);
      DayMonotone(s.clock, e.at);
    } else if e.Reclaim? && s.inFlight.Some? {
      ReclaimKeepsLast(s.rows, e.olderThan);
      ReclaimKeepsStamps(s.rows, e.olderThan, s.rows[|s.rows| - 1].kind);
    }
  }

  lemma OneDayStep(env: Env, s: Ledger, e: Event, t: Ledger, k: ActionType, day: int)
    requires Step(env, s, e, t) && Ordered(s) && DailyBound(env, s)
    ensures OnDay(t.rows, k, day) <= env.Bound(k)
  {
    assert OnDay(s.rows, k, day) <= env.Bound(k);
    match e
    case Mint(_, _, _, _, _, _, _) => NewPendingRow(s, e, k);
    case Land(at, result) =>
      SettleRow(s, result, at, k);
      var xs := Stamps(s.rows, k);
      assert xs + [] == xs;
      if Stamps(t.rows, k) != xs {
        StampsComeFromRows(s.rows, k, s.inFlight.value.decidedAt);
        DayAppend(xs, s.inFlight.value.decidedAt, at, env.Bound(k), day);
      }
    case Reclaim(_, olderThan) => ReclaimKeepsStamps(s.rows, olderThan, k);
    case _ =>
  }

  lemma SpacingBoundStep(env: Env, s: Ledger, e: Event, t: Ledger)
    requires Step(env, s, e, t) && Ordered(s) && SpacingBound(env, s)
    ensures SpacingBound(env, t)
  {
    match e
    case Mint(_, _, _, _, _, _, _) => SpacingMint(env, s, e, t);
    case Land(_, _) => SpacingLand(env, s, e, t);
    case Reclaim(_, _) => SpacingReclaim(env, s, e, t);
    case _ =>
  }

  lemma SpacingLand(env: Env, s: Ledger, e: Event, t: Ledger)
    requires Step(env, s, e, t) && e.Land? && Ordered(s) && SpacingBound(env, s)
    ensures SpacingBound(env, t)
  {
    SettleRow(s, e.result, e.at, Connect);
  }

  lemma SpacingReclaim(env: Env, s: Ledger, e: Event, t: Ledger)
    requires Step(env, s, e, t) && e.Reclaim? && SpacingBound(env, s)
    ensures SpacingBound(env, t)
  {
    ReclaimKeepsStamps(s.rows, e.olderThan, Connect);
  }

  /** A mint was only allowed with the gap since the last action behind it. */
  lemma SpacingMint(env: Env, s: Ledger, e: Event, t: Ledger)
    requires Step(env, s, e, t) && e.Mint? && Ordered(s) && SpacingBound(env, s)
    ensures SpacingBound(env, t)
  {
    NewPendingRow(s, e, e.kind);
    AllowedMeans(env.cfg, e.acct, e.kind, e.at, ReadingOf(s, e.kind, e.at, e.outstanding), e.gap);
    if s.last.Some? {
      StampsComeFromRows(s.rows, e.kind, s.last.value);
    }
  }

  /** What an event does to the pause set and its log. */
  predicate DecidesPause(s: Ledger, t: Ledger, e: Event) {
    if e.Pause? || e.Resume? then
      (s.pauseLog != [] ==> s.pauseLog[|s.pauseLog| - 1].ts < e.at)
      && t.pauseLog == s.pauseLog + [PauseEvent(e.Pause?, e.at)] && t.paused == e.Pause?
    else t.pauseLog == s.pauseLog && t.paused == if e.Restart? then PausedFrom(s.pauseLog) else s.paused
  }

  lemma StepDecidesPause(env: Env, s: Ledger, e: Event, t: Ledger)
    requires Step(env, s, e, t)
    ensures DecidesPause(s, t, e)
  {
  }

  lemma PauseMatchesLogStep(s: Ledger, e: Event, t: Ledger)
    requires DecidesPause(s, t, e) && PauseMatchesLog(s)
    ensures PauseMatchesLog(t)
  {
    ReplayFindsLast(s.pauseLog);
  }

  /** With strictly increasing timestamps a replay at boot finds the last decision. */
  lemma ReplayFindsLast(log: seq<PauseEvent>)
    requires StrictTimes(log)
    ensures PausedFrom(log) <==> log != [] && log[|log| - 1].paused
  {
    if log != [] {
      PauseReplayIsExactUpToTies(log);
      assert forall i :: 0 <= i < |log| && log[i].ts == log[|log| - 1].ts ==> i == |log| - 1;
    }
  }

  ghost predicate Good(env: Env, s: Ledger) {
    Ordered(s) && CountersMatchLog(s) && WeeklyBound(env, s) && DailyBound(env, s) && SpacingBound(env, s) && PauseMatchesLog(s)
  }

  lemma GoodStep(env: Env, s: Ledger, e: Event, t: Ledger)
    requires Step(env, s, e, t) && Good(env, s)
    ensures Good(env, t)
  {
    OrderedStep(env, s, e, t);
    CountersMatchLogStep(env, s, e, t);
    WeeklyBoundStep(env, s, e, t);
    DailyBoundStep(env, s, e, t);
    SpacingBoundStep(env, s, e, t);
    StepDecidesPause(env, s, e, t);
    PauseMatchesLogStep(s, e, t);
  }

  lemma InitialIsGood(env: Env, s: Ledger)
    requires Initial(s)
    ensures Good(env, s)
  {
  }

  lemma {:induction false} EveryReachedStateIsGood(env: Env, states: seq<Ledger>, events: seq<Event>, i: nat)
    requires Run(env, states, events) && i < |states|
    ensures Good(env, states[i])
  {
    if i == 0 {
      InitialIsGood(env, states[0]);
    } else {
      var n := i - 1;
      assert Good(env, states[n]) by {
        EveryReachedStateIsGood(env, states, events, n);
      }
      assert Good(env, states[n + 1]) by {
        NextIsGood(env, states, events, n);
      }
    }
  }

  lemma NextIsGood(env: Env, states: seq<Ledger>, events: seq<Event>, i: nat)
    requires Run(env, states, events) && i < |events| && Good(env, states[i])
    ensures Good(env, states[i + 1])
  {
    var s, e, t := states[i], events[i], states[i + 1];
    assert Step(env, s, e, t);
    GoodStep(env, s, e, t);
  }

  // ----- the theorems

  /** Every window of 604,800,000 ms, seven days, holds at most the ceiling of successful connects. */
  lemma WeeklyCeilingHolds(env: Env, states: seq<Ledger>, events: seq<Event>, i: nat, hi: int)
    requires Run(env, states, events) && i < |states|
    ensures CountIn(Stamps(states[i].rows, Connect), hi - SEVEN_DAYS_MS, hi) <= env.cfg.weeklyInviteCeiling
    ensures |Done(states[i].rows, Connect, hi - 604_800_000, hi)| <= env.cfg.weeklyInviteCeiling
  {
    EveryReachedStateIsGood(env, states, events, i);
    CountIsRows(states[i].rows, Connect, hi - 604_800_000, hi);
    assert InWeek(Stamps(states[i].rows, Connect), hi) <= env.cfg.weeklyInviteCeiling;
  }

  /** Every local day holds at most the cap of each kind, and every 24 hours, ends
      included, at most twice the cap. */
  lemma DailyCapHolds(env: Env, states: seq<Ledger>, events: seq<Event>, i: nat, kind: ActionType, day: int, from: int)
    requires Run(env, states, events) && i < |states|
    ensures OnDay(states[i].rows, kind, day) <= env.Bound(kind)
    ensures CountIn(Stamps(states[i].rows, kind), from - 1, from + DAY_MS) <= 2 * env.Bound(kind)
    ensures |Done(states[i].rows, kind, day * 86_400_000 - 1, (day + 1) * 86_400_000 - 1)| <= env.Bound(kind)
    ensures |Done(states[i].rows, kind, from - 1, from + 86_400_000)| <= 2 * env.Bound(kind)
  {
    EveryReachedStateIsGood(env, states, events, i);
    CountIsRows(states[i].rows, kind, day * 86_400_000 - 1, (day + 1) * 86_400_000 - 1);
    CountIsRows(states[i].rows, kind, from - 1, from + 86_400_000);
    var rows, d := states[i].rows, DayOf(from);
    assert OnDay(rows, kind, day) <= env.Bound(kind);
    assert OnDay(rows, kind, d) <= env.Bound(kind) && OnDay(rows, kind, d + 1) <= env.Bound(kind);
    WithinTwoDays(Stamps(rows, kind), from);
  }

  /** Any 24 hours, ends included, lie within two calendar days. */
  lemma WithinTwoDays(xs: seq<int>, from: int)
    ensures var d := DayOf(from);
            CountIn(xs, from - 1, from + DAY_MS)
            <= CountIn(xs, At(d, 0) - 1, At(d + 1, 0) - 1) + CountIn(xs, At(d + 1, 0) - 1, At(d + 2, 0) - 1)
  {
    var d := DayOf(from);
    var lo, mid, hi := At(d, 0) - 1, At(d + 1, 0) - 1, At(d + 2, 0) - 1;
    assert lo <= from - 1 <= from + DAY_MS <= hi;
    WindowsAdd(xs, lo, mid, hi);
    WindowsAdd(xs, lo, from - 1, hi);
    WindowsAdd(xs, from - 1, from + DAY_MS, hi);
  }

  /** Actions of the account, of whatever kind and outcome, finish at least the minimum gap apart. */
  lemma ActionsAreSpaced(env: Env, states: seq<Ledger>, events: seq<Event>, i: nat)
    requires Run(env, states, events) && i < |states|
    ensures Spaced(Completions(states[i].rows), env.cfg.minActionGapMs)
    ensures forall j, k :: 0 <= j < k < |states[i].rows| && states[i].rows[j].executedAt.Some? && states[i].rows[k].executedAt.Some? ==>
              states[i].rows[j].executedAt.value + env.cfg.minActionGapMs <= states[i].rows[k].executedAt.value
  {
    EveryReachedStateIsGood(env, states, events, i);
    var rows := states[i].rows;
    forall j, k | 0 <= j < k < |rows| && rows[j].executedAt.Some? && rows[k].executedAt.Some?
      ensures rows[j].executedAt.value + env.cfg.minActionGapMs <= rows[k].executedAt.value
    {
      RowsAreSpaced(rows, env.cfg.minActionGapMs, j, k);
    }
  }

  lemma RowsAreSpaced(rows: seq<ActionRow>, gap: nat, j: nat, k: nat)
    requires Spaced(Completions(rows), gap) && j < k < |rows| && rows[j].executedAt.Some? && rows[k].executedAt.Some?
    ensures rows[j].executedAt.value + gap <= rows[k].executedAt.value
  {
    CompletionsHold(rows, j);
    CompletionsHold(rows, k);
    CompletionsGrow(rows, j, k);
    SpacedOrder(Completions(rows), gap, |Completions(rows[..j])| + 1, |Completions(rows[..k])|);
  }

  /** Hence an interval of length `length` sees at most floor(length / gap) + 1 of them. */
  lemma BurstBound(env: Env, states: seq<Ledger>, events: seq<Event>, i: nat, from: int, length: nat)
    requires Run(env, states, events) && i < |states| && env.cfg.minActionGapMs > 0
    ensures CountIn(Completions(states[i].rows), from - 1, from + length) <= length / env.cfg.minActionGapMs + 1
    ensures |Finished(states[i].rows, from - 1, from + length)| <= length / env.cfg.minActionGapMs + 1
  {
    CountIsFinished(states[i].rows, from - 1, from + length);
    ActionsAreSpaced(env, states, events, i);
    var xs, gap := Completions(states[i].rows), env.cfg.minActionGapMs;
    SpacedCount(xs, gap, from, from + length);
    var n := CountIn(xs, from - 1, from + length);
    if n >= 1 {
      QuotientBound(n - 1, gap, length);
    }
  }

  lemma QuotientBound(n: nat, gap: nat, length: nat)
    requires gap > 0 && n * gap <= length
    ensures n <= length / gap
  {
    var q := length / gap;
    assert (q + 1) * gap == q * gap + gap > length;
    if q + 1 <= n {
      ProductMonotone(q + 1, n, gap);
    }
  }

  lemma ProductMonotone(a: nat, b: nat, c: nat)
    requires a <= b
    ensures a * c <= b * c
  {
  }

  lemma {:induction false} SpacedOrder(xs: seq<int>, gap: nat, i: nat, j: nat)
    requires Spaced(xs, gap) && i <= j < |xs|
    ensures xs[i] <= xs[j]
  {
    if i < j {
      SpacedOrder(xs, gap, i, j - 1);
    }
  }

  /** n spaced instants inside [lo, hi] span at least (n-1) gaps. */
  lemma {:induction false} SpacedCount(xs: seq<int>, gap: nat, lo: int, hi: int)
    requires Spaced(xs, gap)
    ensures CountIn(xs, lo - 1, hi) >= 1 ==> (CountIn(xs, lo - 1, hi) - 1) * gap <= hi - lo
  {
    if xs != [] {
      var init, x := xs[..|xs| - 1], xs[|xs| - 1];
      if lo <= x <= hi && init != [] {
        SpacedCount(init, gap, lo, x - gap);
        var n := CountIn(init, lo - 1, x - gap);
        forall k | 0 <= k < |init| ensures init[k] <= x - gap {
          SpacedOrder(xs, gap, k, |init| - 1);
          assert xs[|init| - 1] + gap <= xs[|init|];
        }
        SameWindow(init, lo - 1, x - gap, hi);
        assert n * gap == (n - 1) * gap + gap;
      } else {
        SpacedCount(init, gap, lo, hi);
      }
    }
  }

  lemma {:induction false} SameWindow(xs: seq<int>, lo: int, mid: int, hi: int)
    requires mid <= hi && NoneAfter(xs, mid)
    ensures CountIn(xs, lo, mid) == CountIn(xs, lo, hi)
  {
    if xs != [] {
      SameWindow(xs[..|xs| - 1], lo, mid, hi);
    }
  }

  /** Rehydration refines the live state: counters rebuilt from the rows at any
      later instant answer every query from then on exactly as the live pruned ones
      do, the rebuilt pause flag is the live one, and the live pacer is at or after the rebuilt one. */
  lemma RehydrationAgrees(env: Env, states: seq<Ledger>, events: seq<Event>, i: nat, t: Ledger, boot: int, at: int, kind: ActionType)
    requires Run(env, states, events) && i < |states|
    requires Step(env, states[i], Restart(boot), t) && boot <= at
    ensures var s := states[i];
            && CountFrom(t.weekly, WeekStart(at)) == CountFrom(s.weekly, WeekStart(at))
            && CountFrom(StampsFor(t.daily, kind), StartOfLocalDay(at)) == CountFrom(StampsFor(s.daily, kind), StartOfLocalDay(at))
            && t.paused == s.paused
            && (t.last.Some? ==> s.last.Some? && t.last.value <= s.last.value)
  {
    EveryReachedStateIsGood(env, states, events, i);
    GoodStep(env, states[i], Restart(boot), t);
    CountersAgree(states[i], t, at, kind);
  }

  /** Counters that match the same rows answer alike from either clock on. */
  lemma CountersAgree(s: Ledger, t: Ledger, at: int, kind: ActionType)
    requires CountersMatchLog(s) && CountersMatchLog(t) && t.rows == s.rows && s.clock <= at && t.clock <= at
    ensures CountFrom(t.weekly, WeekStart(at)) == CountFrom(s.weekly, WeekStart(at))
    ensures CountFrom(StampsFor(t.daily, kind), StartOfLocalDay(at)) == CountFrom(StampsFor(s.daily, kind), StartOfLocalDay(at))
  {
    DayMonotone(t.clock, at);
    DayMonotone(s.clock, at);
  }

  /** A charge leaves no row, so a restart forgets it: the rebuilt pacer may be behind the live one. */
  lemma RestartForgetsCharge(env: Env, s: Ledger) returns (charged: Ledger, booted: Ledger)
    requires Initial(s) && s.clock == 0
    ensures Step(env, s, Charge(5), charged) && charged.last == Some(5)
    ensures Step(env, charged, Restart(6), booted) && booted.last == None
  {
    charged := s.(clock := 5, last := Later(s.last, 5));
    booted := charged.(clock := 6, last := None);
  }

  /** Nothing is minted between a pause and the next resume, restarts in between or not. */
  lemma PausedMintsNothing(env: Env, states: seq<Ledger>, events: seq<Event>, i: nat)
    requires Run(env, states, events) && i < |events| && events[i].Mint?
    requires states[i].pauseLog != [] && states[i].pauseLog[|states[i].pauseLog| - 1].paused
    ensures states[i + 1].rows == states[i].rows
  {
    EveryReachedStateIsGood(env, states, events, i);
    assert Step(env, states[i], events[i], states[i + 1]);
  }

  // ----- what a mint is decided by, in terms of the rows

  /** The last operator decision is a pause. */
  predicate LastIsPause(log: seq<PauseEvent>) {
    log != [] && log[|log| - 1].paused
  }

  /** After any run, restarts included, a mint is stored exactly when: the last decision is no
      pause and the account acts; fewer rows of the type succeeded since midnight than its cap; for
      an invite, fewer connects succeeded in the last seven days than the ceiling and the pile
      has room; the schedule is open; and the gap since the last stamp has passed. */
  lemma MintedExactlyWhen(env: Env, states: seq<Ledger>, events: seq<Event>, i: nat)
    requires Run(env, states, events) && i < |events| && events[i].Mint?
    ensures var s, e := states[i], events[i];
            |states[i + 1].rows| == |s.rows| + 1 <==>
            && !LastIsPause(s.pauseLog) && e.acct.state in {Cold, Warming, Active, Throttled}
            && (e.acct.limits.Some? && e.kind in e.acct.limits.value.enabled ==> e.acct.limits.value.enabled[e.kind])
            && (exists cap :: HasCap(env.cfg, e.acct, e.kind, cap)
                              && |Done(s.rows, e.kind, e.at / 86_400_000 * 86_400_000 - 1, e.at)| < cap)
            && (e.kind == Connect ==> |Done(s.rows, Connect, e.at - 604_800_000, e.at)| < env.cfg.weeklyInviteCeiling
                                      && e.outstanding < env.cfg.outstandingInviteCeiling)
            && OnSchedule(env.cfg, e.acct, e.kind, e.at)
            && (s.last.Some? ==> s.last.value + e.gap <= e.at)
  {
    var s, e := states[i], events[i];
    EveryReachedStateIsGood(env, states, events, i);
    assert Step(env, s, e, states[i + 1]);
    AllowedExactlyWhen(env.cfg, e.acct, e.kind, e.at, ReadingOf(s, e.kind, e.at, e.outstanding), e.gap);
    ReadingIsOfRows(env, s, e);
  }

  lemma ReadingIsOfRows(env: Env, s: Ledger, e: Event)
    requires Good(env, s) && e.Mint? && Admissible(env, s, e)
    ensures var r := ReadingOf(s, e.kind, e.at, e.outstanding);
            && r.paused == LastIsPause(s.pauseLog) && r.last == s.last && r.outstanding == e.outstanding
            && r.used == |Done(s.rows, e.kind, e.at / 86_400_000 * 86_400_000 - 1, e.at)|
            && r.invites == |Done(s.rows, Connect, e.at - 604_800_000, e.at)|
  {
    RowsStayPast(s.rows, s.clock, e.at);
    CountSinceIsRows(s.rows, e.kind, e.at / 86_400_000 * 86_400_000 - 1, e.at);
    CountSinceIsRows(s.rows, Connect, e.at - 604_800_000, e.at);
    CountersReadRows(s, e.at, e.kind);
  }

  lemma CountersReadRows(s: Ledger, at: int, kind: ActionType)
    requires CountersMatchLog(s) && s.clock <= at
    ensures CountFrom(s.weekly, WeekStart(at)) == CountFrom(Stamps(s.rows, Connect), at - 604_800_000 + 1)
    ensures CountFrom(StampsFor(s.daily, kind), StartOfLocalDay(at)) == CountFrom(Stamps(s.rows, kind), at / 86_400_000 * 86_400_000)
  {
    DayMonotone(s.clock, at);
  }

  lemma CountSinceIsRows(rows: seq<ActionRow>, kind: ActionType, after: int, at: int)
    requires RowsUpTo(rows, at)
    ensures CountFrom(Stamps(rows, kind), after + 1) == |Done(rows, kind, after, at)|
  {
    CountIsRows(rows, kind, after, at);
    StampsComeFromRows(rows, kind, at);
    WindowIsCountFrom(Stamps(rows, kind), after, at);
  }

  lemma RowsStayPast(rows: seq<ActionRow>, clock: int, at: int)
    requires RowsUpTo(rows, clock) && clock <= at
    ensures RowsUpTo(rows, at)
  {
  }

  // ----- a day of throttling

  /** Every mint of a type decided on a date was decided under at most this cap. */
  ghost predicate CappedOn(env: Env, events: seq<Event>, n: nat, kind: ActionType, date: int, cap: int)
    requires n <= |events|
  {
    forall k :: 0 <= k < n && events[k].Mint? && events[k].kind == kind && events[k].at / 86_400_000 == date ==>
      exists c :: HasCap(env.cfg, events[k].acct, kind, c) && c <= cap
  }

  /** What holds along a day whose mints are capped: never more landings than the cap, or the one
      landing that was under way when the day began. */
  ghost predicate WithinDayCap(s: Ledger, kind: ActionType, date: int, cap: int) {
    && OnDay(s.rows, kind, date) <= Max(cap, 1)
    && (s.inFlight.Some? && s.rows != [] && s.rows[|s.rows| - 1].kind == kind && DayOf(s.inFlight.value.decidedAt) == date ==>
          CountFrom(Stamps(s.rows, kind), StartOfLocalDay(s.inFlight.value.decidedAt)) < cap)
  }

  lemma DayCapStep(env: Env, s: Ledger, e: Event, t: Ledger, kind: ActionType, date: int, cap: int)
    requires Step(env, s, e, t) && Ordered(s) && CountersMatchLog(s) && WithinDayCap(s, kind, date, cap)
    requires e.Mint? && e.kind == kind && e.at / 86_400_000 == date ==> exists c :: HasCap(env.cfg, e.acct, kind, c) && c <= cap
    ensures WithinDayCap(t, kind, date, cap)
  {
    match e
    case Mint(_, _, _, _, _, _, _) => DayCapMint(env, s, e, t, kind, date, cap);
    case Land(_, _) => DayCapLand(env, s, e, t, kind, date, cap);
    case Reclaim(_, _) => DayCapReclaim(env, s, e, t, kind, date, cap);
    case _ => DayCapAlike(s, t, kind, date, cap);
  }

  lemma DayCapAlike(s: Ledger, t: Ledger, kind: ActionType, date: int, cap: int)
    requires WithinDayCap(s, kind, date, cap) && t.rows == s.rows && (t.inFlight == s.inFlight || t.inFlight.None?)
    ensures WithinDayCap(t, kind, date, cap)
  {
  }

  lemma DayCapReclaim(env: Env, s: Ledger, e: Event, t: Ledger, kind: ActionType, date: int, cap: int)
    requires Step(env, s, e, t) && e.Reclaim? && Ordered(s) && WithinDayCap(s, kind, date, cap)
    ensures WithinDayCap(t, kind, date, cap)
  {
    ReclaimKeepsStamps(s.rows, e.olderThan, kind);
    assert OnDay(t.rows, kind, date) == OnDay(s.rows, kind, date);
    if s.inFlight.Some? {
      ReclaimKeepsLast(s.rows, e.olderThan);
    }
  }

  lemma DayCapMint(env: Env, s: Ledger, e: Event, t: Ledger, kind: ActionType, date: int, cap: int)
    requires Step(env, s, e, t) && e.Mint? && Ordered(s) && CountersMatchLog(s) && WithinDayCap(s, kind, date, cap)
    requires e.kind == kind && e.at / 86_400_000 == date ==> exists c :: HasCap(env.cfg, e.acct, kind, c) && c <= cap
    ensures WithinDayCap(t, kind, date, cap)
  {
    NewPendingRow(s, e, kind);
    AllowedMeans(env.cfg, e.acct, e.kind, e.at, ReadingOf(s, e.kind, e.at, e.outstanding), e.gap);
    DayMonotone(s.clock, e.at);
    if e.kind == kind && e.at / 86_400_000 == date {
      var c :| HasCap(env.cfg, e.acct, kind, c) && c <= cap;
      OneCap(env.cfg, e.acct, kind, c);
    }
  }

  lemma DayCapLand(env: Env, s: Ledger, e: Event, t: Ledger, kind: ActionType, date: int, cap: int)
    requires Step(env, s, e, t) && e.Land? && Ordered(s) && WithinDayCap(s, kind, date, cap)
    ensures WithinDayCap(t, kind, date, cap)
  {
    SettleRow(s, e.result, e.at, kind);
    var xs := Stamps(s.rows, kind);
    assert xs + [] == xs;
    if Stamps(t.rows, kind) != xs {
      var decidedAt := s.inFlight.value.decidedAt;
      StampsComeFromRows(s.rows, kind, decidedAt);
      CappedDayAppend(xs, decidedAt, e.at, cap, date);
    }
  }

  lemma CappedDayAppend(xs: seq<int>, decidedAt: int, at: int, cap: int, date: int)
    requires NoneAfter(xs, decidedAt) && decidedAt <= at
    requires DayOf(decidedAt) == date ==> CountFrom(xs, StartOfLocalDay(decidedAt)) < cap
    requires CountIn(xs, At(date, 0) - 1, At(date + 1, 0) - 1) <= Max(cap, 1)
    ensures CountIn(xs + [at], At(date, 0) - 1, At(date + 1, 0) - 1) <= Max(cap, 1)
  {
    if DayOf(decidedAt) == date {
      DayAppend(xs, decidedAt, at, Max(cap, 1), date);
    } else {
      FirstOfItsDay(xs, decidedAt, at, Max(cap, 1), date);
    }
  }

  /** A stamp whose decision was on an earlier day is the first of its own. */
  lemma FirstOfItsDay(xs: seq<int>, decidedAt: int, at: int, cap: nat, day: int)
    requires NoneAfter(xs, decidedAt) && decidedAt <= at && DayOf(decidedAt) != day && cap >= 1
    requires CountIn(xs, At(day, 0) - 1, At(day + 1, 0) - 1) <= cap
    ensures CountIn(xs + [at], At(day, 0) - 1, At(day + 1, 0) - 1) <= cap
  {
    AppendCounts(xs, at, At(day, 0) - 1, At(day + 1, 0) - 1);
    if DayOf(at) == day {
      DayMonotone(decidedAt, at);
      WindowIsCountFrom(xs, decidedAt, decidedAt);
      NarrowerWindow(xs, decidedAt, decidedAt, At(day, 0) - 1, At(day + 1, 0) - 1);
      NoneBetween(xs, decidedAt);
    }
  }

  lemma {:induction false} NoneBetween(xs: seq<int>, at: int)
    ensures CountIn(xs, at, at) == 0
  {
    if xs != [] {
      NoneBetween(xs[..|xs| - 1], at);
    }
  }

  lemma {:induction false} DayCapAlong(env: Env, states: seq<Ledger>, events: seq<Event>, i: nat, kind: ActionType, date: int, cap: int)
    requires Run(env, states, events) && i < |states| && CappedOn(env, events, i, kind, date, cap)
    ensures WithinDayCap(states[i], kind, date, cap)
  {
    if i > 0 {
      var n := i - 1;
      DayCapAlong(env, states, events, n, kind, date, cap);
      EveryReachedStateIsGood(env, states, events, n);
      assert Step(env, states[n], events[n], states[n + 1]);
      DayCapStep(env, states[n], events[n], states[n + 1], kind, date, cap);
    }
  }

  /** An account throttled whenever it mints on a date lands at most its base cap times the
      multiplier, rounded down, of a type on that date; where that is nothing, at most the one
      action under way when the date began. */
  lemma ThrottledDay(env: Env, states: seq<Ledger>, events: seq<Event>, i: nat, kind: ActionType, date: int, base: int, cap: int)
    requires Run(env, states, events) && i < |states|
    requires cap as real <= base as real * env.cfg.throttleMultiplier < cap as real + 1.0
    requires forall k :: 0 <= k < i && events[k].Mint? && events[k].kind == kind && events[k].at / 86_400_000 == date ==>
               && events[k].acct.state == Throttled
               && var caps := if events[k].acct.limits.Some? then events[k].acct.limits.value.caps else env.cfg.active;
                  kind in caps && caps[kind] == base
    ensures |Done(states[i].rows, kind, date * 86_400_000 - 1, (date + 1) * 86_400_000 - 1)| <= Max(cap, 1)
  {
    forall k | 0 <= k < i && events[k].Mint? && events[k].kind == kind && events[k].at / 86_400_000 == date
      ensures exists c :: HasCap(env.cfg, events[k].acct, kind, c) && c <= cap
    {
      assert HasCap(env.cfg, events[k].acct, kind, cap);
    }
    DayCapAlong(env, states, events, i, kind, date, cap);
    CountIsRows(states[i].rows, kind, date * 86_400_000 - 1, (date + 1) * 86_400_000 - 1);
  }
}
