/** The safety gate: may this account perform this action now?

`Decide` is the decision as a function of what the counters read; `CanAct` is
the gate itself, which reads the live counters (pruning them as it goes) in the
source's order and stops at the first refusal. */
module SafetyGates {
  import opened Wrappers
  import opened LocalTime
  import opened WorkingSchedule
  import opened Actions
  import opened SafetyCounters

  datatype AccountState = Cold | Warming | Active | Throttled | Cooldown | Restricted

  type CapTable = map<ActionType, int>

  /** Operator-set limits of one account. */
  datatype Limits = Limits(
    caps: CapTable,
    enabled: map<ActionType, bool>,
    schedule: Option<Schedule>,
    schedules: map<ActionType, Schedule>)

  datatype Account = Account(id: AccountId, state: AccountState, limits: Option<Limits>)

  datatype SafetyConfig = SafetyConfig(
    active: CapTable,
    throttleMultiplier: real,
    weeklyInviteCeiling: nat,
    outstandingInviteCeiling: nat,
    minActionGapMs: nat,
    actionGapJitterMs: nat,
    activeHoursStart: int,
    activeHoursEnd: int,
    utcOffset: int)

  datatype DenyReason = Paused | StateRestricted | StateCooldown | Disabled | NotPermitted | PileTooLarge

  datatype Decision = Allow | Defer(until: int) | Deny(reason: DenyReason)

  /** What the gate reads off the live counters for one account and action type. */
  datatype Reading = Reading(paused: bool, used: nat, invites: nat, outstanding: nat, last: Option<int>)

  // ----- caps and schedules

  function ScaleCaps(caps: CapTable, factor: real): CapTable {
    map k | k in caps :: ((caps[k] as real) * factor).Floor
  }

  function BaseCaps(cfg: SafetyConfig, acct: Account): CapTable {
    if acct.limits.Some? then acct.limits.value.caps else cfg.active
  }

  /** The cap of one type: the base one, throttled or zero as the account's state demands; 0 when absent. */
  function CapFor(cfg: SafetyConfig, acct: Account, kind: ActionType): int {
    var caps :=
      match acct.state
      case Cold | Warming | Active => BaseCaps(cfg, acct)
      case Throttled => ScaleCaps(BaseCaps(cfg, acct), cfg.throttleMultiplier)
      case Cooldown | Restricted => map[];
    if kind in caps then caps[kind] else 0
  }

  /** Throttling only ever cuts, and by exactly the multiplier, rounded down. */
  lemma ThrottleNeverRaises(cfg: SafetyConfig, acct: Account, kind: ActionType)
    requires 0.0 <= cfg.throttleMultiplier <= 1.0
    requires kind in BaseCaps(cfg, acct) && BaseCaps(cfg, acct)[kind] >= 0
    ensures 0 <= CapFor(cfg, acct, kind) <= BaseCaps(cfg, acct)[kind]
    ensures acct.state == Throttled ==>
              CapFor(cfg, acct, kind) as real <= BaseCaps(cfg, acct)[kind] as real * cfg.throttleMultiplier < CapFor(cfg, acct, kind) as real + 1.0
  {
    FloorScaled(BaseCaps(cfg, acct)[kind], cfg.throttleMultiplier);
  }

  lemma FloorScaled(c: int, f: real)
    requires 0 <= c && 0.0 <= f <= 1.0
    ensures 0 <= ((c as real) * f).Floor <= c
  {
    var x := c as real;
    assert x * (1.0 - f) >= 0.0;
    assert x * f == x - x * (1.0 - f);
    assert 0.0 <= x * f <= x;
  }

  function EffectiveSchedule(cfg: SafetyConfig, acct: Account, kind: Option<ActionType>): Schedule {
    if acct.limits.Some? && kind.Some? && kind.value in acct.limits.value.schedules then
      acct.limits.value.schedules[kind.value]
    else if acct.limits.Some? && acct.limits.value.schedule.Some? then
      acct.limits.value.schedule.value
    else
      Schedule(cfg.activeHoursStart, cfg.activeHoursEnd, {0, 1, 2, 3, 4, 5, 6})
  }

  predicate ActionEnabled(acct: Account, kind: ActionType) {
    acct.limits.Some? && kind in acct.limits.value.enabled ==> acct.limits.value.enabled[kind]
  }

  /** Every window that may apply stays inside the documented hour ranges. */
  predicate ValidHours(cfg: SafetyConfig, acct: Account) {
    && Schedule(cfg.activeHoursStart, cfg.activeHoursEnd, {}).Valid()
    && (acct.limits.Some? ==>
          && (acct.limits.value.schedule.Some? ==> acct.limits.value.schedule.value.Valid())
          && (forall k :: k in acct.limits.value.schedules ==> acct.limits.value.schedules[k].Valid()))
  }

  // ----- the decision

  function Decide(cfg: SafetyConfig, acct: Account, kind: ActionType, now: int, r: Reading, gap: int): Decision {
    if r.paused then Deny(Paused)
    else if acct.state == Restricted then Deny(StateRestricted)
    else if acct.state == Cooldown then Deny(StateCooldown)
    else if !ActionEnabled(acct, kind) then Deny(Disabled)
    else if CapFor(cfg, acct, kind) <= 0 then Deny(NotPermitted)
    else if r.used >= CapFor(cfg, acct, kind) then Defer(NextUtcDay(now, cfg.utcOffset))
    else if kind == Connect && r.invites >= cfg.weeklyInviteCeiling then Defer(NextUtcDay(now, cfg.utcOffset))
    else if kind == Connect && r.outstanding >= cfg.outstandingInviteCeiling then Deny(PileTooLarge)
    else TimingOf(cfg, acct, kind, now, r.last, gap)
  }

  /** Inside the working window, and a gap behind the last action. */
  function TimingOf(cfg: SafetyConfig, acct: Account, kind: ActionType, now: int, last: Option<int>, gap: int): Decision {
    var window := Deferral(now, EffectiveSchedule(cfg, acct, Some(kind)));
    if window.Some? then Defer(window.value)
    else if last.Some? && now < last.value + gap then Defer(last.value + gap)
    else Allow
  }

  // ----- what the limits are, spelled out

  /** The cap of a type: the operator's, or the default; cut by the multiplier, rounded down,
      while throttled. An account cooling down or restricted has none, nor has a type that
      is not listed. */
  predicate HasCap(cfg: SafetyConfig, acct: Account, kind: ActionType, cap: int) {
    var base := if acct.limits.Some? then acct.limits.value.caps else cfg.active;
    && kind in base
    && match acct.state
       case Cold | Warming | Active => cap == base[kind]
       case Throttled => cap as real <= base[kind] as real * cfg.throttleMultiplier < cap as real + 1.0
       case Cooldown | Restricted => false
  }

  /** The schedule that counts: the action's own, else the account's, else the default hours every day. */
  predicate OnSchedule(cfg: SafetyConfig, acct: Account, kind: ActionType, t: int) {
    && (acct.limits.Some? && kind in acct.limits.value.schedules ==> InWindow(acct.limits.value.schedules[kind], t))
    && (acct.limits.Some? && kind !in acct.limits.value.schedules && acct.limits.value.schedule.Some? ==>
          InWindow(acct.limits.value.schedule.value, t))
    && (acct.limits.None? || (kind !in acct.limits.value.schedules && acct.limits.value.schedule.None?) ==>
          InWindow(Schedule(cfg.activeHoursStart, cfg.activeHoursEnd, {0, 1, 2, 3, 4, 5, 6}), t))
  }

  /** Not paused, in a state that acts, and the type not switched off. */
  predicate Permitted(acct: Account, kind: ActionType, r: Reading) {
    && !r.paused && acct.state in {Cold, Warming, Active, Throttled}
    && (acct.limits.Some? && kind in acct.limits.value.enabled ==> acct.limits.value.enabled[kind])
  }

  /** Only for invites: room in the week and in the pile. */
  predicate InvitesLeft(cfg: SafetyConfig, kind: ActionType, r: Reading) {
    kind == Connect ==> r.invites < cfg.weeklyInviteCeiling && r.outstanding < cfg.outstandingInviteCeiling
  }

  lemma OneCap(cfg: SafetyConfig, acct: Account, kind: ActionType, cap: int)
    requires HasCap(cfg, acct, kind, cap)
    ensures CapFor(cfg, acct, kind) == cap
  {
    if acct.state == Throttled {
      var base := if acct.limits.Some? then acct.limits.value.caps else cfg.active;
      FloorIsIt(base[kind] as real * cfg.throttleMultiplier, cap);
    }
  }

  lemma FloorIsIt(x: real, c: int)
    requires c as real <= x < c as real + 1.0
    ensures x.Floor == c
  {
  }

  lemma NoCap(cfg: SafetyConfig, acct: Account, kind: ActionType)
    requires acct.state in {Cold, Warming, Active, Throttled} && forall cap :: !HasCap(cfg, acct, kind, cap)
    ensures CapFor(cfg, acct, kind) == 0
  {
    var base := if acct.limits.Some? then acct.limits.value.caps else cfg.active;
    if kind in base {
      var c := if acct.state == Throttled then (base[kind] as real * cfg.throttleMultiplier).Floor else base[kind];
      assert HasCap(cfg, acct, kind, c);
    }
  }

  lemma ScheduleCounts(cfg: SafetyConfig, acct: Account, kind: ActionType, t: int)
    ensures EffectiveSchedule(cfg, acct, Some(kind)).Open(t) <==> OnSchedule(cfg, acct, kind, t)
  {
    WindowIsOpen(EffectiveSchedule(cfg, acct, Some(kind)), t);
  }

  /** The gate allows exactly when every limit independently does. */
  lemma AllowedExactlyWhen(cfg: SafetyConfig, acct: Account, kind: ActionType, now: int, r: Reading, gap: int)
    requires ValidHours(cfg, acct)
    ensures Decide(cfg, acct, kind, now, r, gap) == Allow <==>
            && Permitted(acct, kind, r)
            && (exists cap :: HasCap(cfg, acct, kind, cap) && r.used < cap)
            && InvitesLeft(cfg, kind, r)
            && OnSchedule(cfg, acct, kind, now)
            && (r.last.Some? ==> r.last.value + gap <= now)
  {
    DeferralIsLeastOpen(now, EffectiveSchedule(cfg, acct, Some(kind)));
    ScheduleCounts(cfg, acct, kind, now);
    if cap :| HasCap(cfg, acct, kind, cap) {
      OneCap(cfg, acct, kind, cap);
    } else if acct.state in {Cold, Warming, Active, Throttled} {
      NoCap(cfg, acct, kind);
    }
  }

  /** The limits as the run theorems need them, by name. */
  lemma AllowedMeans(cfg: SafetyConfig, acct: Account, kind: ActionType, now: int, r: Reading, gap: int)
    requires ValidHours(cfg, acct)
    ensures Decide(cfg, acct, kind, now, r, gap) == Allow ==>
              && !r.paused && r.used < CapFor(cfg, acct, kind)
              && (kind == Connect ==> r.invites < cfg.weeklyInviteCeiling)
              && (r.last.Some? ==> r.last.value + gap <= now)
  {
  }

  /** At the cap, and exactly there, an account otherwise free to act turns from acting to the
      next UTC day; without a positive cap it is refused outright. */
  lemma TurnsAtTheCap(cfg: SafetyConfig, acct: Account, kind: ActionType, now: int, r: Reading, gap: int)
    requires ValidHours(cfg, acct) && Permitted(acct, kind, r) && InvitesLeft(cfg, kind, r) && OnSchedule(cfg, acct, kind, now)
    requires r.last.Some? ==> r.last.value + gap <= now
    ensures forall cap :: HasCap(cfg, acct, kind, cap) ==>
              Decide(cfg, acct, kind, now, r, gap) ==
                if cap <= 0 then Deny(NotPermitted)
                else if r.used < cap then Allow
                else Defer(((now - cfg.utcOffset) / 86_400_000 + 1) * 86_400_000 + cfg.utcOffset)
    ensures (forall cap :: !HasCap(cfg, acct, kind, cap)) ==> Decide(cfg, acct, kind, now, r, gap) == Deny(NotPermitted)
  {
    DeferralIsLeastOpen(now, EffectiveSchedule(cfg, acct, Some(kind)));
    ScheduleCounts(cfg, acct, kind, now);
    forall cap | HasCap(cfg, acct, kind, cap) ensures CapFor(cfg, acct, kind) == cap {
      OneCap(cfg, acct, kind, cap);
    }
    if forall cap :: !HasCap(cfg, acct, kind, cap) {
      NoCap(cfg, acct, kind);
    }
  }

  /** Past the counted limits, a closed window defers to the least instant it is open again, and
      a gap still running to its end; an exhausted week defers to the next UTC day. */
  lemma DefersUntil(cfg: SafetyConfig, acct: Account, kind: ActionType, now: int, r: Reading, gap: int, cap: int)
    requires ValidHours(cfg, acct) && Permitted(acct, kind, r) && HasCap(cfg, acct, kind, cap) && r.used < cap
    ensures var d := Decide(cfg, acct, kind, now, r, gap);
            && (kind == Connect && r.invites >= cfg.weeklyInviteCeiling ==>
                  d == Defer(((now - cfg.utcOffset) / 86_400_000 + 1) * 86_400_000 + cfg.utcOffset))
            && (InvitesLeft(cfg, kind, r) && !OnSchedule(cfg, acct, kind, now) ==>
                  && d.Defer? && now < d.until && (forall t :: now <= t < d.until ==> !OnSchedule(cfg, acct, kind, t))
                  && (EffectiveSchedule(cfg, acct, Some(kind)).HasActiveDay() ==> OnSchedule(cfg, acct, kind, d.until)))
            && (InvitesLeft(cfg, kind, r) && OnSchedule(cfg, acct, kind, now) && r.last.Some? && now < r.last.value + gap ==>
                  d == Defer(r.last.value + gap))
  {
    OneCap(cfg, acct, kind, cap);
    DeferralIsLeastOpen(now, EffectiveSchedule(cfg, acct, Some(kind)));
    forall t ensures EffectiveSchedule(cfg, acct, Some(kind)).Open(t) <==> OnSchedule(cfg, acct, kind, t) {
      ScheduleCounts(cfg, acct, kind, t);
    }
  }

  /** Every refusal says why, and the first reason that holds is the one given. */
  lemma RefusedBecause(cfg: SafetyConfig, acct: Account, kind: ActionType, now: int, r: Reading, gap: int)
    requires ValidHours(cfg, acct)
    ensures var d := Decide(cfg, acct, kind, now, r, gap);
            var off := acct.limits.Some? && kind in acct.limits.value.enabled && !acct.limits.value.enabled[kind];
            && (d == Deny(Paused) <==> r.paused)
            && (d == Deny(StateRestricted) <==> !r.paused && acct.state == Restricted)
            && (d == Deny(StateCooldown) <==> !r.paused && acct.state == Cooldown)
            && (d == Deny(Disabled) <==> !r.paused && acct.state !in {Restricted, Cooldown} && off)
            && (d == Deny(NotPermitted) <==> Permitted(acct, kind, r) && forall cap :: HasCap(cfg, acct, kind, cap) ==> cap <= 0)
            && (d == Deny(PileTooLarge) <==>
                  && Permitted(acct, kind, r) && kind == Connect && (exists cap :: HasCap(cfg, acct, kind, cap) && r.used < cap)
                  && r.invites < cfg.weeklyInviteCeiling && r.outstanding >= cfg.outstandingInviteCeiling)
  {
    forall cap | HasCap(cfg, acct, kind, cap) ensures CapFor(cfg, acct, kind) == cap {
      OneCap(cfg, acct, kind, cap);
    }
    if acct.state in {Cold, Warming, Active, Throttled} && forall cap :: !HasCap(cfg, acct, kind, cap) {
      NoCap(cfg, acct, kind);
    }
  }

  /** A deferral always names a later instant, so retrying at it makes progress. */
  lemma DeferralsAreLater(cfg: SafetyConfig, acct: Account, kind: ActionType, now: int, r: Reading, gap: int)
    requires ValidHours(cfg, acct)
    ensures var d := Decide(cfg, acct, kind, now, r, gap); d.Defer? ==> now < d.until
  {
    DeferralIsLeastOpen(now, EffectiveSchedule(cfg, acct, Some(kind)));
    HourBounds(now - cfg.utcOffset);
  }

  // ----- the gate

  class SafetyGate {
    const cfg: SafetyConfig
    const weekly: WeeklyInviteCounter
    const daily: DailyUsage
    const outstanding: OutstandingInvites
    const pacer: ActionPacer
    const pause: PauseRegistry

    constructor (cfg: SafetyConfig, weekly: WeeklyInviteCounter, daily: DailyUsage,
                 outstanding: OutstandingInvites, pacer: ActionPacer, pause: PauseRegistry)
      ensures this.cfg == cfg && this.weekly == weekly && this.daily == daily
      ensures this.outstanding == outstanding && this.pacer == pacer && this.pause == pause
    {
      this.cfg := cfg;
      this.weekly := weekly;
      this.daily := daily;
      this.outstanding := outstanding;
      this.pacer := pacer;
      this.pause := pause;
    }

    /** What a check at `now` would read. */
    ghost function ReadingAt(id: AccountId, kind: ActionType, now: int): Reading
      reads weekly, daily, outstanding, pacer, pause
    {
      Reading(id in pause.paused,
              CountFrom(StampsFor(daily.Table(id), kind), StartOfLocalDay(now)),
              CountFrom(weekly.List(id), WeekStart(now)),
              outstanding.Outstanding(id),
              pacer.LastActionAt(id))
    }

    method CanAct(acct: Account, kind: ActionType, now: int, gap: int) returns (d: Decision)
      requires ValidHours(cfg, acct)
      modifies weekly, daily
      ensures d == Decide(cfg, acct, kind, now, old(ReadingAt(acct.id, kind, now)), gap)
      ensures weekly.List(acct.id) in {old(weekly.List(acct.id)), KeepFrom(old(weekly.List(acct.id)), WeekStart(now))}
      ensures PrunedTable(old(daily.Table(acct.id)), daily.Table(acct.id), StartOfLocalDay(now))
      ensures forall other :: other != acct.id ==>
                weekly.List(other) == old(weekly.List(other)) && daily.Table(other) == old(daily.Table(other))
    {
      if acct.id in pause.paused {
        return Deny(Paused);
      }
      if acct.state == Restricted {
        return Deny(StateRestricted);
      }
      if acct.state == Cooldown {
        return Deny(StateCooldown);
      }
      if !ActionEnabled(acct, kind) {
        return Deny(Disabled);
      }
      var usedToday := daily.UsedToday(acct.id, now);
      var cap := CapFor(cfg, acct, kind);
      var used := usedToday[kind];
      if cap <= 0 {
        return Deny(NotPermitted);
      }
      if used >= cap {
        return Defer(NextUtcDay(now, cfg.utcOffset));
      }
      if kind == Connect {
        var weekInvites := weekly.InvitesLast7d(acct.id, now);
        if weekInvites >= cfg.weeklyInviteCeiling {
          return Defer(NextUtcDay(now, cfg.utcOffset));
        }
        if outstanding.Outstanding(acct.id) >= cfg.outstandingInviteCeiling {
          return Deny(PileTooLarge);
        }
      }
      d := CheckTiming(acct, kind, now, gap);
    }

    /** The last two limits: the working window, and the gap since the last action. */
    method CheckTiming(acct: Account, kind: ActionType, now: int, gap: int) returns (d: Decision)
      requires ValidHours(cfg, acct)
      ensures d == TimingOf(cfg, acct, kind, now, pacer.LastActionAt(acct.id), gap)
    {
      var windowDefer := ScheduleDefer(now, EffectiveSchedule(cfg, acct, Some(kind)));
      if windowDefer.Some? {
        return Defer(windowDefer.value);
      }
      var last := pacer.LastActionAt(acct.id);
      if last.Some? {
        var readyAt := last.value + gap;
        if now < readyAt {
          return Defer(readyAt);
        }
      }
      return Allow;
    }
  }
}
