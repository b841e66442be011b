# Verified decision core of the outreach engine

A Dafny model of what decides whether, when and to whom the engine acts: the
per-account rate limiter, the per-lead funnel, the calendar and slot arithmetic,
the reply detector, the stale-invitation sweep and the pacing scheduler. Each part
that the repository writes as an object with methods is a class here, each loop is
a loop; every method is tied by its contract to a value-level transition, and the
laws are proved about those transitions over all runs.

`dafny verify dfyconfig.toml` checks the whole project.

## How it fits together

| part | files |
|---|---|
| Calendar | `LocalTime`, `WorkingSchedule`, `WorkingHours` |
| Staggered enrollment | `GreedySlots` (greedy allocation over any day rule), `Stagger`, `Enrollment` |
| Rate limiter | `Actions`, `SafetyCounters`, `SafetyGates`, `ActionRuns` (runs and their theorems), `AccountRunner` |
| Funnel, as values | `FunnelWorld` (tables and transitions), `FunnelLaws` (invariant and direction), `FunnelMoves`, `FunnelRuns` (every event keeps them) |
| Funnel, theorems | `FunnelEntries`, `FunnelTheorems`, `FunnelFrames`, `InviteLedger`, `SendLanes`, `ContactLock`, `Suppression`, `FunnelCases` (concrete runs) |
| Funnel, spelled out | `HumanGate` (who is asked), `DueTimes` (when a step goes out), `ReplyRoutes` (what a reply leaves), `Outcomes` (what every event leaves and reports) |
| Funnel, as code | `FunnelStore`, `DispatchTick`, `TickRuns`, `FunnelServices` |
| Replies, sweep, scheduler | `ReplyDetector`, `Sweeper`, `Scheduler` |
| Shared | `Wrappers`, `Sets`, `Sorting` |

**Rate limiter.** `ActionRuns.Step` is one transition of one account: a mint
attempt, a landing, a stranded drive, a pause, a resume, a read, a restart that
rebuilds every counter from the stored rows, the deletion of stale pending rows at
boot, or a pacer charge by the invitation sweep (`Sweeper.SweepIsCharges`). Runs contain restarts anywhere. The decision, the reserved stamp and the
completion stamp are three separate instants.

**Funnel.** `FunnelWorld.World` holds the cursor, target and message tables, the
live outstanding counter and an audit log. `FunnelRuns.Event` lists the writers:
dispatch step, approved send, acceptance, routed reply, decision, sweep, gated
withdrawal, removal, enrollment, autonomy change, restart. Executor results, the
reply probe, the rest of the gate's answer, draft text and intents are inputs and
range over everything. `FunnelLaws.Inv` ties the tables to the log and
`FunnelLaws.Forward` says in which direction tables may move; every event keeps the
one and obeys the other. `TickRuns.TickIsARun` shows that a whole dispatch tick,
which iterates over snapshots, is a run of single events. What takes a lead out is
defined by the log, so the theorems about leaving cover replies found by the draft-time
and the send-time probe as well as those the detector hands in.

**Spelled out.** The writers and the laws share vocabulary such as `Contacted` or
`CapFor`. So that a slip in it cannot pass both, each rule is also stated with its
levels, states, intents and milliseconds written out: in the four funnel modules above,
in `SafetyGates` and `ActionRuns` for the limits, in `WorkingSchedule` for the calendar,
and beside the operation elsewhere.

**Replies.** `ReplyDetector.Step` is one transition of the detector over a mailbox that
grows between any two of them; a history pass is a path of such transitions.

## Results that are not a plain yes

- A day-level delay can come due before a shorter exact one
  (`WorkingSchedule.DelayBoundaryInverts` gives the exact condition).
- A pause and a resume with one timestamp boot unpaused
  (`SafetyCounters.PauseReplayIsExactUpToTies` gives the condition,
  `SafetyCounters.TiedPauseIsLost` an input). Runs therefore assume strictly
  increasing decision timestamps; `ActionRuns.RehydrationAgrees` rests on that.
- The cross-campaign lock is consulted by dispatch steps only. Every event keeps one
  campaign per person exactly under the condition of `ContactLock.EventExclusiveIff`:
  steps, probes, acceptances and the rest always do, an approved invite that goes out
  and a reply routed from outside only for people nobody else contacts.
  `ContactLock.BothApprovedBothInvited` and `FunnelCases.RoutedReplyBreaksExclusion`
  are inputs that break it.
- A cursor can be left awaiting an approval that no longer exists, in exactly the two
  ways of `FunnelFrames.StrandedExactlyBy`, and is freed only by a reply or a removal
  (`FunnelFrames.FreedExactlyBy`). One is a rejection that does not resolve the cursor
  (`FunnelCases.AuditOnlyRejectionStrands`). `ApprovalAdapter.record`
  (`runtime/src/adapters/mcp-ports.ts:202-210`) would do that, but nothing in the
  repository calls it; the reject tool (`control-plane/mcp/src/tools.ts:928`) goes
  through `reject`, which skips the cursor only for a row stored without its request
  (`runtime/src/adapters/mcp-ports.ts:169-173`), as rows from before that column
  existed are. The other is an approved non-invite that turned out to have nothing to
  send (`runtime/src/dispatch/tick.ts:403-416`, `FunnelCases.SkippedViewStrands`).
  The tick allows it for every type, but the only no-op today's driver returns is
  `already_pending`, from a connect (`account-runner/src/executor/actions.ts:39`,
  `312`, `327`), so a new kind of no-op is what would bring it about.
- The outstanding counter drifts up by one whenever a parked lead replies or is
  removed, and through nothing else (`InviteLedger.PullingAParkedLeadDrifts`,
  `InviteLedger.ExactUnlessPulled`).
- A Stop silences the person's messages and invites in every campaign, whichever way it
  was routed (`Suppression.StopSilencesThePerson`). View, follow and react steps do not
  ask the suppression list (`runtime/src/dispatch/tick.ts:730-738`):
  `Suppression.SuppressedStepIff` says exactly when such a step still acts, and in the
  run of `FunnelCases.ViewedAfterStop` it does. Approved sends ask it for every type.
- A thread read keeps the detector's marks sound exactly when its history holds no
  unseen message, up to the row's instant, that the lead's identity does not match
  (`ReplyDetector.StepKeepsGoodIff`); such a message is passed by the mark and the tick
  then skips the thread (`ReplyDetector.UnmatchedMessageIsPassed`). Rows are matched by
  participant, messages by sender (`runtime/src/dispatch/reply-tick.ts:268-305`,
  `515`). Only the send-time probe takes any message of the thread for a reply.
- Of a history only the newest message is ever routed: an older unseen reply of the
  lead is marked seen by the same read and never routed, by this process at least
  (`ReplyDetector.ReplyIsRoutedIff`, `ReplyDetector.SeenIsNeverRouted`). That is meant
  for several replies in a row, and also happens when the newer message is somebody
  else's (`ReplyDetector.OlderReplyIsLost`). A message on which the classifier or the
  router throws counts as routed here and is not tried again.
- Event times in a thread must increase: a second message in the millisecond of a read
  is passed by its mark (`ReplyDetector.ArrivalKeepsIff`, `ReplyDetector.TiedArrivalIsPassed`).
- A sweep charges the pacer without an action row, so a restart forgets the charge
  (`ActionRuns.RestartForgetsCharge`); the spacing of the logged actions holds regardless.
- A type without a cap is not limited by the pacing scheduler
  (`Scheduler.MissingCapMeansNoLimit`): a comparison with a missing number is false.
- A negative maximum makes the sweep's slice count from the back, so its cap of 100
  does not hold (`Sweeper.SweepSizeIsCappedIff`); the MCP tool refuses such a maximum.

## Where code and documentation differ

The model follows the code.

- `shared/src/enums.ts` describes the state `withdrawn` as covering the stale sweep;
  the sweep writes `skipped` (`runtime/src/executor/withdraw-invitations.ts:291`).
- `DEFAULT_MAX_CONSECUTIVE_THROTTLES` is documented as the number of throttles after
  which a sweep stops; an invite is given up after one more than that.
- `nextWorkingInstant` is documented to return a working day's start hour; it keeps
  the minutes of its argument and so may land up to an hour later.
- `runtime/src/dispatch/reply-tick.ts:280-282` says that two enrollments sharing one
  thread both route. Both histories are read, but the seen-set is shared: the newest
  message is routed for the first lead only, and the second is not pulled by it
  (`ReplyDetector.SharedThreadRoutesOnce`).
- The gate resets daily usage at local midnight but defers an exhausted cap to the
  next UTC day; `SafetyGates.DeferralsAreLater` covers every offset between the two.

## Assumptions

- Instants are whole milliseconds from a local midnight at a fixed UTC offset; jitter
  gaps are drawn integers.
- The enabled steps of a campaign are fixed during a funnel run, a lead belongs to
  its cursor's campaign, and no step is a withdrawal (the step types offer none).
- When a mint is attempted, no drive under way is older than the minimum action gap.
  This is weaker than one action at a time: within the gap the reserved slot refuses
  the second mint (`ActionRuns.ReservationExcludesOverlap`).
- Caps are bounded by `Env.capBound` during a rate-limit run, which lets operators and
  account states change them under it.
- One dispatch step, approved send, acceptance, routing, decision, removal or
  enrollment is one atomic event, and a probe that throws had no effect. An action row
  of the funnel carries one instant for its creation and its execution.
- Store listings of a person's rows are complete; canonical profile keys are identities.
- In the reply detector, rows are no later than their thread's last event, histories are
  complete, event times in a thread increase strictly, and one thread read is atomic.
  The laws about marks are about runs whose reads are clean in the sense above.
- Stale pending rows are deleted only when older than a drive that is under way.
- Ids of queued actions are distinct where order independence is claimed.

## Model

| member | source | states |
|---|---|---|
| `WorkingSchedule.ScheduleDefer` | `control-plane/safety/src/safety-gate.ts:491-508` | The search answers none exactly inside the window; otherwise the first instant inside it, or, with every day off, a week out |
| `WorkingSchedule.DeferralDefersTo` | `control-plane/safety/src/safety-gate.ts:491-508` | In milliseconds: none exactly inside the window; otherwise the first instant inside it, or, with every day off, a week out at the window start |
| `WorkingSchedule.WalkCandidates` | `control-plane/safety/src/safety-gate.ts:491-508` | Walking eight candidate days finds the deferral, or parks a week out with every day off |
| `WorkingSchedule.DeferralIsLeastOpen` | `control-plane/safety/src/safety-gate.ts:491-508` | The deferral is the least open instant after now; with no active day it parks a week out |
| `WorkingSchedule.EveryDayScheduleIsActiveHours` | `control-plane/safety/src/safety-gate.ts:449-457` | With all seven days active the schedule rule and the older hours-only rule defer to the same instant |
| `WorkingSchedule.DueAfterDelay` | `runtime/src/dispatch/advance.ts:24-39` | The snap-and-walk loop finds the first active morning of the target day or later; delays under a day stay exact, none means due at once |
| `WorkingSchedule.SnapAndWalk` | `runtime/src/dispatch/advance.ts:24-39` | The loop itself: snap to the window start of the target day, then walk to the next active one |
| `WorkingSchedule.DueIsByDelay` | `runtime/src/dispatch/advance.ts:24-39` | In milliseconds: none for no delay, exactly that much later under 86400 s, otherwise the window start of the first working date the delay reaches |
| `WorkingSchedule.DueIsLater` | `runtime/src/dispatch/advance.ts:24-39` | Every positive delay is due strictly after the step was handled, a day-level one on a strictly later date |
| `WorkingSchedule.DueLandsOnFirstOpenMorning` | `runtime/src/dispatch/advance.ts:33-38` | A day-level due time is the window start of the first active day within a week of its target, and the gate never defers it further |
| `WorkingSchedule.DueMonotone` | `runtime/src/dispatch/advance.ts:33-38` | Longer day-level delays are never due earlier |
| `WorkingSchedule.DelayBoundaryInverts` | `runtime/src/dispatch/advance.ts:29-38` | Across the one-day boundary order fails: a longer day-level delay is due before a shorter exact one exactly when it lands on an active tomorrow whose window start precedes the exact instant |
| `WorkingSchedule.DelayBoundaryExample` | `runtime/src/dispatch/advance.ts:29-38` | A concrete inversion: at 15:00 a delay of 86400 s is due before one of 86399 s |
| `Stagger.NextTerminates` | `runtime/src/dispatch/stagger.ts:54-65` | The unbounded day search stops at the least free offset, within 7 x (full days) + 1 |
| `Stagger.SlotIsEarliestDayWithRoom` | `runtime/src/dispatch/stagger.ts:49-65` | The slot handed out falls on or before every date with room: today, or any active later day |
| `Stagger.NextSlotIsEarliest` | `runtime/src/dispatch/stagger.ts:49-65` | After any n slots the next is none exactly while today has room, else lands on a date with room, at a window start, on or before every working date with room |
| `Stagger.OnIsMultiplicity` | `runtime/src/dispatch/stagger.ts:35-47` | The dates counted are those of the due times ahead, and today for none or a past one |
| `Stagger.SlotsNonDecreasing` | `runtime/src/dispatch/stagger.ts:54-65` | Later claims never land on earlier dates |
| `Stagger.DayNeverPastCap` | `runtime/src/dispatch/stagger.ts:41-65` | However many slots are claimed, the due times that count against a date end at most at the cap, or where the ledger already had them |
| `Stagger.BatchSplit` | `runtime/src/dispatch/stagger.ts:41-65` | n slots, then a fresh allocator over the ledger reread in any order and m more, are the slots of one run of n+m |
| `Stagger.SlotsExtend` | `runtime/src/dispatch/stagger.ts:54-65` | One more claim appends one slot and fills exactly its date |
| `Stagger.TryOffset` | `runtime/src/dispatch/stagger.ts:55-63` | The search succeeds at an offset exactly when it is the least free one |
| `Stagger.StaggerAllocator.constructor` | `runtime/src/dispatch/stagger.ts:35-42` | Seeding counts every ledger entry against its own future date, or today when null or past |
| `Stagger.StaggerAllocator.Claim` | `runtime/src/dispatch/stagger.ts:44-47` | One date gains one claim, the others none |
| `Stagger.StaggerAllocator.Next` | `runtime/src/dispatch/stagger.ts:54-65` | The loop terminates, hands out the least free offset and records exactly its date |
| `Enrollment.EnrolledWithinCap` | `runtime/src/adapters/mcp-ports.ts:431-433` | For every batch, with new, already enrolled and repeated ids mixed, no date holds more first-step cursors of the campaign than the cap, or than it held before |
| `Enrollment.JudgedFor` | `runtime/src/adapters/mcp-ports.ts:388-415` | An id is skipped as removed exactly when its row is marked, else as elsewhere exactly when a listed row of the person is contacted under another campaign |
| `Enrollment.JudgedPicks` | `runtime/src/adapters/mcp-ports.ts:388-441` | The ids of one verdict are picked out of the list in order, none twice and none left out |
| `Enrollment.JudgedOne` | `runtime/src/adapters/mcp-ports.ts:388-441` | A single id is picked exactly when it is given the verdict |
| `Enrollment.BatchTakesSlots` | `runtime/src/adapters/mcp-ports.ts:430-441` | Whoever is new waits for a slot of the first step's schedule, or is due at once when nothing caps the step |
| `Enrollment.LedgerIsTheTable` | `runtime/src/adapters/mcp-ports.ts:475-479` | The allocator starts with exactly the first-step cursors the campaign has due on each date, those without a due time or overdue counted today, whatever order they are listed in |
| `Enrollment.RowsWithinClaims` | `runtime/src/adapters/mcp-ports.ts:431-441` | A date gains at most as many cursors as slots were claimed on it: an id that has a row claims a slot and stores nothing |
| `Enrollment.NewcomersGetTheSlots` | `runtime/src/adapters/mcp-ports.ts:430-441` | An id without a row stores the slot claimed at its first place in the list |
| `Enrollment.OldRowsStay` | `runtime/src/store/postgres-store.ts:188-206` | Enrollment never rewrites an existing cursor and adds only listed ids |
| `Enrollment.Enroller.IsBlocked` | `runtime/src/adapters/mcp-ports.ts:405-415` | Blocked exactly when some listed row of the person is contacted under another campaign than the one being enrolled into |
| `Enrollment.Enroller.Consider` | `runtime/src/adapters/mcp-ports.ts:388-441` | Removed or elsewhere-contacted people claim no slot and get no row; everybody else claims the next slot, new or not, and an id without a target row fails on insertion |
| `Enrollment.Enroller.EnrollOne` | `runtime/src/adapters/mcp-ports.ts:388-441` | One pass of the loop extends rows and counts by exactly its candidate, or stops at an unknown one with the rows as they were |
| `Enrollment.Enroller.EnrollStagger` | `runtime/src/adapters/mcp-ports.ts:460-480` | No allocator exactly when nothing caps the first step; otherwise one seeded with the committed first-step due times |
| `Enrollment.Enroller.EnrollTargets` | `runtime/src/adapters/mcp-ports.ts:374-480` | The batch enrolls exactly the people let in before the first unknown id, returns their rows in order and the removed and elsewhere-contacted counts apart; spread over days exactly when the first step is an action with a positive cap, then packing no date past that cap |
| `Enrollment.ReportedAddsUp` | `runtime/src/adapters/mcp-ports.ts:443-450` | Every id considered is counted enrolled, skipped as removed, or skipped as contacted elsewhere |
| `Actions.PruningKeepsLaterCounts` | `runtime/src/adapters/safety-state.ts:82-90` | Dropping stamps before a cutoff changes no count from that cutoff on |
| `Actions.StampsComeFromRows` | `runtime/src/adapters/safety-state.ts:65-73` | Every counted stamp belongs to a stored row, so it is no later than the log |
| `Actions.ReclaimKeepsStamps` | `runtime/src/store/postgres-store.ts:104-115` | Deleting stale pending rows changes no count any limit is stated over |
| `Actions.Reclaimed` | `runtime/src/store/postgres-store.ts:104-115` | Exactly the pending, never executed and old rows are deleted |
| `Actions.ReclaimedNext` | `runtime/src/store/postgres-store.ts:104-115` | Row by row: a pending, never executed, old row goes, every other stays in place |
| `Actions.CountIsRows` | `runtime/src/adapters/safety-state.ts:82-90` | The counted stamps of a window are its successful rows of the type, at their execution or else their schedule |
| `SafetyCounters.WeeklyInviteCounter.Rehydrate` | `runtime/src/adapters/safety-state.ts:65-73` | Rebuilt lists hold the instants of successful connects only |
| `SafetyCounters.WeeklyInviteCounter.Record` | `runtime/src/adapters/safety-state.ts:76-80` | One account gains one stamp |
| `SafetyCounters.WeeklyInviteCounter.InvitesLast7d` | `runtime/src/adapters/safety-state.ts:82-90` | The read counts the rolling week and its pruning loses nothing a later read could count |
| `SafetyCounters.DailyUsage.Rehydrate` | `runtime/src/adapters/safety-state.ts:129-149` | Rebuilt tables hold, per type, the successes since local midnight |
| `SafetyCounters.DailyUsage.TodaysStamps` | `runtime/src/adapters/safety-state.ts:133-147` | The row loop collects each type its own stamps of today, midnight included |
| `SafetyCounters.TodayGains` | `runtime/src/adapters/safety-state.ts:133-147` | A further row adds its stamp to its own type, and only if it succeeded today |
| `SafetyCounters.DailyUsage.Record` | `runtime/src/adapters/safety-state.ts:152-161` | Only the acted type of the acting account gains a stamp |
| `SafetyCounters.DailyUsage.UsedToday` | `runtime/src/adapters/safety-state.ts:163-176` | Every type reports the successes since local midnight; pruning keeps them |
| `SafetyCounters.OutstandingInvites.Rehydrate` | `runtime/src/adapters/safety-state.ts:202-207` | Each account counts its own parked cursors |
| `SafetyCounters.OutstandingInvites.Record` | `runtime/src/adapters/safety-state.ts:210-212` | One account's pile grows by one |
| `SafetyCounters.OutstandingInvites.Release` | `runtime/src/adapters/safety-state.ts:217-219` | One account's pile shrinks by one, never below zero |
| `SafetyCounters.ActionPacer.Rehydrate` | `runtime/src/adapters/safety-state.ts:237-247` | The latest instant of any row; an account without rows is left alone |
| `SafetyCounters.ActionPacer.Record` | `runtime/src/adapters/safety-state.ts:250-254` | The stamp never moves back |
| `SafetyCounters.PauseReplayIsExactUpToTies` | `runtime/src/adapters/safety-state.ts:278-289` | Replaying pause events in time order gives the last decision except exactly when a final pause shares its timestamp with a resume; that family boots unpaused |
| `SafetyCounters.TiedPauseIsLost` | `runtime/src/adapters/safety-state.ts:278-289` | A concrete log: a resume and then a pause with one timestamp boots unpaused |
| `SafetyCounters.BootsPausedIff` | `runtime/src/adapters/safety-state.ts:278-289` | An account boots paused exactly when some pause is later than every resume |
| `SafetyCounters.PauseRegistry.Rehydrate` | `runtime/src/adapters/safety-state.ts:278-289` | Each account is paused exactly when its newest pause is newer than its newest resume |
| `SafetyCounters.PauseRegistry.Pause` | `runtime/src/adapters/safety-state.ts:291-293` | Exactly one account becomes paused |
| `SafetyCounters.PauseRegistry.Resume` | `runtime/src/adapters/safety-state.ts:295-297` | Exactly one account becomes unpaused |
| `SafetyGates.AllowedExactlyWhen` | `control-plane/safety/src/safety-gate.ts:240-335` | The gate allows exactly when not paused, in an acting state, enabled, under the cap (the base one, or base x multiplier rounded down while throttled), below the weekly and outstanding ceilings (connects), on the schedule that counts and past the drawn gap |
| `SafetyGates.DeferralsAreLater` | `control-plane/safety/src/safety-gate.ts:240-335` | Every deferral names a strictly later instant, whatever the host offset |
| `SafetyGates.ThrottleNeverRaises` | `control-plane/safety/src/safety-gate.ts:132-138` | Throttling cuts a cap by exactly the multiplier, rounded down, and never makes it negative |
| `SafetyGates.SafetyGate.CanAct` | `control-plane/safety/src/safety-gate.ts:240-335` | Reading the live, pruned counters decides as the counters' plain values would, and disturbs no other account |
| `SafetyGates.TurnsAtTheCap` | `control-plane/safety/src/safety-gate.ts:204-208` | An account otherwise free to act turns from acting to the next UTC day exactly at its cap: the base one, or while throttled the number c with c <= base x multiplier < c + 1; without a positive cap it is refused |
| `SafetyGates.DefersUntil` | `control-plane/safety/src/safety-gate.ts:279-335` | Past the counted limits: a full week defers to the next UTC day, a closed window to its first open instant, a running gap to its end; the action's own schedule counts before the account's, and that before the default |
| `SafetyGates.RefusedBecause` | `control-plane/safety/src/safety-gate.ts:240-295` | Every refusal names the first reason that holds |
| `ActionRuns.ReservationExcludesOverlap` | `runtime/src/executor/account-runner-executor.ts:188-188` | While a drive is under way the reserved pacer slot makes the gate refuse every overlapping mint |
| `ActionRuns.RollingAppend` | `runtime/src/adapters/safety-state.ts:82-90` | A stamp taken after the decision, added while the week ending at the decision had room, keeps every seven-day window within the ceiling |
| `ActionRuns.CountersMatchLogStep` | `runtime/src/adapters/safety-state.ts:76-176` | Whatever happens, the pruned live counters answer every present and later query as a plain count of the action rows |
| `ActionRuns.WeeklyCeilingHolds` | `control-plane/safety/src/safety-gate.ts:279-284` | Over every run, restarts included, every 604800000 ms hold at most the ceiling of successful connect rows |
| `ActionRuns.DailyCapHolds` | `control-plane/safety/src/safety-gate.ts:273-275` | Over every run each local day holds at most the cap of successful rows per type and any 86400000 ms at most twice it |
| `ActionRuns.MintedExactlyWhen` | `runtime/src/executor/account-runner-executor.ts:142-188` | In every run a mint attempt leaves a row exactly when the stored rows and pause log, counted afresh, leave room in the day and the week, the schedule is open and the gap is past |
| `ActionRuns.ThrottledDay` | `control-plane/safety/src/safety-gate.ts:204-208` | Over every run an account throttled throughout a local day lands at most base x multiplier, rounded down, of each type on it, or where that is nothing at most the one action under way when the day began |
| `ActionRuns.ActionsAreSpaced` | `control-plane/safety/src/safety-gate.ts:323-332` | Over every run any two executed rows finish at least the minimum gap apart |
| `ActionRuns.BurstBound` | `control-plane/safety/src/safety-gate.ts:323-332` | An interval of length L holds at most floor(L / gap) + 1 actions |
| `ActionRuns.RehydrationAgrees` | `runtime/src/adapters/safety-state.ts:65-289` | After any run, counters and pause flag rebuilt from rows answer every later query as the live ones do, and the live pacer is at or after the rebuilt one |
| `ActionRuns.RestartForgetsCharge` | `runtime/src/adapters/safety-state.ts:237-247` | A concrete run: a pacer charge that left no action row is gone after a restart |
| `ActionRuns.PausedMintsNothing` | `control-plane/safety/src/safety-gate.ts:246-248` | Between a pause and the next resume nothing is minted, restarts or not |
| `ActionRuns.ReplayFindsLast` | `runtime/src/adapters/safety-state.ts:278-289` | With strictly increasing timestamps a boot finds the last decision |
| `ActionRuns.EveryReachedStateIsGood` | `runtime/src/executor/account-runner-executor.ts:128-350` | Every state of every run satisfies the joint counter, window, day, spacing and pause invariant |
| `AccountRunners.AccountRunner.Mint` | `runtime/src/executor/account-runner-executor.ts:142-188` | Storing the pending row, re-checking and either dropping it or reserving the slot is one mint transition of that account alone |
| `AccountRunners.AccountRunner.CheckAndReserve` | `runtime/src/executor/account-runner-executor.ts:142-188` | The decision is the gate's; a refusal leaves no row, an allowance leaves a pending row and a reserved slot |
| `AccountRunners.AccountRunner.Land` | `runtime/src/executor/account-runner-executor.ts:209-350` | Settling the row and warming the counters is one landing transition; only a success charges a limiter |
| `AccountRunners.AccountRunner.WarmCounters` | `runtime/src/executor/account-runner-executor.ts:319-335` | A connect charges the weekly and outstanding counters, a freed withdrawal drains one, every success charges its daily type |
| `AccountRunners.AccountRunner.RehydrateSafety` | `runtime/src/compose.ts:460-467` | Booting over the stored rows is each account's restart transition, and each pile becomes the account's parked cursors |
| `AccountRunners.AccountRunner.ReclaimStalePending` | `runtime/src/store/postgres-store.ts:104-115` | Each account makes its reclaim transition and nothing else changes |
| `AccountRunners.ReclaimedStep` | `runtime/src/main.ts:33-43` | Reclaiming at boot is one transition of a run, so every limit holds across it |
| `AccountRunners.AccountRunner.PauseAccount` | `runtime/src/adapters/mcp-ports.ts:676-679` | Pausing changes one account's flag and log together |
| `AccountRunners.AccountRunner.ResumeAccount` | `runtime/src/adapters/mcp-ports.ts:681-684` | Resuming changes one account's flag and log together |
| `AccountRunners.AccountRunner.KillAll` | `runtime/src/adapters/mcp-ports.ts:686-701` | Every account gets its own pause event, so each kill replays after a restart |
| `FunnelMoves.QueueMove` | `control-plane/orchestrator/src/approvals.ts:51-76` | Queuing a draft parks exactly its cursor, handles the step for the first time, and keeps the invariant |
| `FunnelMoves.DirectMove` | `runtime/src/dispatch/tick.ts:770-840` | A directly driven step is handled once, after acceptance if a message, never after the lead ended |
| `FunnelMoves.SendLanded` | `runtime/src/dispatch/tick.ts:396-463` | A delivered row is spent exactly once and was signed with the body it carried |
| `FunnelMoves.StopMove` | `runtime/src/store/postgres-store.ts:284-310` | Leaving the funnel makes the cursor terminal and cancels every undelivered row, keeping the invariant |
| `FunnelMoves.DecideMove` | `control-plane/orchestrator/src/approvals.ts:122-166` | A decision is recorded once per draft and licenses exactly the body it left |
| `FunnelMoves.AcceptMove` | `runtime/src/dispatch/acceptance-tick.ts:232-248` | Stage connected is earned by a recorded acceptance |
| `FunnelMoves.AbandonMove` | `runtime/src/dispatch/tick.ts:580-606` | Giving up drops the row and fails its parked cursor together |
| `FunnelMoves.EnrollMove` | `runtime/src/store/postgres-store.ts:188-206` | A newcomer cannot inherit drafts, replies or acceptances |
| `FunnelRuns.StepKept` | `runtime/src/dispatch/tick.ts:609-840` | A dispatch step keeps the invariant and only moves tables forward |
| `FunnelRuns.SendKept` | `runtime/src/dispatch/tick.ts:317-463` | An approved send keeps the invariant and only moves tables forward |
| `FunnelRuns.EventKept` | `runtime/src/dispatch/tick.ts:268-840` | Every writer of the funnel keeps the invariant and only moves tables forward |
| `FunnelRuns.RunKept` | `runtime/src/dispatch/tick.ts:268-840` | Over every run the invariant holds throughout and every later world is further on than every earlier one |
| `FunnelEntries.EventLogsOne` | `runtime/src/dispatch/tick.ts:317-840` | One event makes at most one executor call, decision, draft, acceptance, routing, removal or abandonment, on the row and account it is about |
| `FunnelTheorems.StepHandledAtMostOnce` | `runtime/src/dispatch/tick.ts:609-840` | No step index of a lead is drafted or directly executed twice over any run |
| `FunnelTheorems.StepDeliveredAtMostOnce` | `runtime/src/dispatch/tick.ts:427-463` | No step of a lead is delivered twice, whether directly or through its approved draft |
| `FunnelTheorems.EveryDeliveryHasItsStep` | `runtime/src/dispatch/tick.ts:317-463` | Every sequence delivery belongs to some step, so the once-only bound misses none |
| `FunnelTheorems.MessageOnlyAfterAcceptance` | `runtime/src/dispatch/tick.ts:661-674` | A lead not connected to begin with gets a message drafted or driven only after a recorded acceptance |
| `FunnelTheorems.SilentAfterTheEnd` | `control-plane/orchestrator/src/reply-router.ts:78-83` | After a reply was routed, by the detector or by either probe, or the lead removed, nothing more is drafted for it or driven at it |
| `FunnelTheorems.UndeliveredStaysUndelivered` | `runtime/src/store/postgres-store.ts:298-310` | A row undelivered when its lead left, a reply found by a probe included, is never delivered |
| `FunnelTheorems.LeavingCancels` | `runtime/src/store/postgres-store.ts:298-310` | Whatever event ends a lead cancels or leaves dead every row of it not yet sent |
| `FunnelTheorems.EventTakesOut` | `control-plane/orchestrator/src/reply-router.ts:73-91` | A reply handed in by the detector, or a removal, ends the lead |
| `FunnelTheorems.StepProbeTakesOut` | `runtime/src/dispatch/tick.ts:688-720` | A step held for a reply its probe routed ends the lead |
| `FunnelTheorems.SendProbeTakesOut` | `runtime/src/dispatch/tick.ts:370-390` | So does an approved send stopped by a reply its probe routed |
| `FunnelTheorems.TerminalIsFrozen` | `runtime/src/store/postgres-store.ts:284-297` | A terminal cursor never changes again under any writer |
| `FunnelTheorems.StepNeverDecreases` | `runtime/src/dispatch/advance.ts:41-66` | A cursor's step index never goes back |
| `FunnelTheorems.ChangesSpendPotential` | `runtime/src/dispatch/tick.ts:317-840` | Every change of (state, step) along a trail spends a lexicographic potential |
| `FunnelTheorems.ChangesAreBounded` | `runtime/src/dispatch/tick.ts:317-840` | A cursor over n enabled steps changes (state, step) at most 3n+1 times |
| `FunnelTheorems.EveryCallIsGated` | `control-plane/mcp/src/gate.ts:55-141` | Every executor call had a level permitting its type, or an approving decision earlier in the log on exactly the body it carried |
| `FunnelTheorems.DirectUsesPresentLevel` | `control-plane/mcp/src/gate.ts:101-106` | The level a direct call relied on is the campaign's level at that moment |
| `HumanGate.NothingGoesOutUnasked` | `control-plane/mcp/src/gate.ts:55-66` | Over every run no supervised campaign drives anything unasked, and nothing but an autonomous one drives a message |
| `HumanGate.DraftsOnlyWhereAskedFor` | `control-plane/mcp/src/gate.ts:101-104` | A draft is made only by a supervised campaign, or for a message by a semi-autonomous one; it holds the step's text and parks the cursor |
| `HumanGate.StepActsIff` | `runtime/src/dispatch/tick.ts:655-840` | A step on an action drafts exactly when its way is clear and a human is asked, drives exactly when its way is clear, none is asked and the account may act, and otherwise logs nothing but a routed reply |
| `DueTimes.MovedOnByItsDelay` | `runtime/src/dispatch/advance.ts:57-62` | Whatever moves a lead to another step, a drive, a wait, an approved send or an acceptance, moves it on by one and stores the due time of that step's own delay |
| `DueTimes.NothingBeforeItsTime` | `runtime/src/dispatch/tick.ts:268-394` | Over every run a step with a due time is neither driven nor sent before it |
| `DueTimes.RunDraftsWhenDue` | `runtime/src/dispatch/tick.ts:298-307` | Over every run only a message has a live draft ahead of its time |
| `FunnelTheorems.OneDeliveryPerDecision` | `control-plane/orchestrator/src/approvals.ts:122-166` | One decision yields at most one successful execution |
| `FunnelTheorems.RejectionSendsNothing` | `control-plane/orchestrator/src/approvals.ts:154-160` | A rejected draft is never even attempted |
| `Suppression.StepContactIsLicensed` | `runtime/src/dispatch/tick.ts:660-769` | Whenever a step drafts or drives a message or invite the lead was unsuppressed and contacted by nobody else, and for a message plainly connected with no reply found |
| `Suppression.SendContactIsLicensed` | `runtime/src/dispatch/tick.ts:321-394` | Whenever an approved send reaches the executor the gate was open, the person unsuppressed and, for a message, the lead not lost or replied, the step due and the probe clear |
| `Suppression.ContactMeetsNoSuppressed` | `control-plane/orchestrator/src/suppression.ts:41-65` | No event contacts a person suppressed at that moment |
| `Suppression.SuppressedStaysSilent` | `control-plane/orchestrator/src/suppression.ts:27-65` | Over every run, once a person is suppressed none of their leads in any campaign gets a message or invite drafted or driven |
| `Suppression.StopSuppresses` | `runtime/src/dispatch/reply-tick.ts:466-500` | A Stop routed by the detector, the draft-time probe or the send-time probe suppresses the person |
| `Suppression.StopSilencesThePerson` | `control-plane/orchestrator/src/reply-router.ts:93-101` | A Stop routed for one lead, by whichever path, silences the person in every campaign for good |
| `Suppression.SuppressedStepIff` | `runtime/src/dispatch/tick.ts:730-738` | A step still acts on a suppressed lead exactly when its kind is neither message nor invite: directly where the level lets it and the gate is open, as a draft otherwise |
| `FunnelCases.ViewedAfterStop` | `runtime/src/dispatch/tick.ts:730-738` | A concrete run: after a Stop the person's other lead is viewed directly |
| `FunnelFrames.EventLeavesOthers` | `runtime/src/store/postgres-store.ts:266-310` | One event touches the cursor, stage and rows of one lead only |
| `FunnelFrames.StrandedExactlyBy` | `runtime/src/dispatch/tick.ts:396-426` | A lead is left awaiting an approval nobody can give exactly by an audit-only rejection or a non-invite send that found nothing to send |
| `FunnelFrames.SendStrandsIff` | `runtime/src/dispatch/tick.ts:403-416` | An approved send strands its lead exactly when it got through to a no-op on a non-invite |
| `FunnelFrames.DecisionStrandsIff` | `runtime/src/adapters/mcp-ports.ts:169-210` | A decision strands its lead exactly when it is a rejection that does not resolve the cursor |
| `FunnelFrames.FreedExactlyBy` | `runtime/src/store/postgres-store.ts:284-310` | Of all events exactly a routed reply or a removal of that lead frees a stranded one |
| `FunnelCases.AuditOnlyRejectionStrands` | `runtime/src/adapters/mcp-ports.ts:202-210` | A concrete run: a rejection that does not resolve the cursor strands its lead |
| `FunnelCases.SkippedViewStrands` | `runtime/src/dispatch/tick.ts:403-416` | A concrete run: an approved profile view that did nothing strands its lead |
| `InviteLedger.OutstandingNeverUndercounts` | `runtime/src/adapters/safety-state.ts:193-224` | Over every run the live counter covers its account's parked cursors and both stay within the ceiling |
| `InviteLedger.PullingAParkedLeadDrifts` | `runtime/src/adapters/safety-state.ts:188-192` | A reply to or removal of a parked lead is exactly one unit of upward drift |
| `InviteLedger.ExactUnlessPulled` | `runtime/src/adapters/safety-state.ts:188-224` | An exact counter stays exact under every event, and stops being exact precisely when a parked lead is routed or removed |
| `InviteLedger.RestartIsExact` | `runtime/src/adapters/safety-state.ts:202-207` | Boot makes the counter exact again |
| `InviteLedger.ParkedLeadIsInvited` | `runtime/src/dispatch/tick.ts:435-445` | Every cursor awaiting acceptance has its lead at stage invited |
| `SendLanes.CapSeesEveryFailure` | `runtime/src/store/postgres-store.ts:67-80` | Every recorded failure of a row is among those the give-up cap counts |
| `SendLanes.AtMostFiveFailures` | `runtime/src/dispatch/tick.ts:330-343` | Over every run no approved row accounts for more than 5 recorded failed executions |
| `SendLanes.NoneAbandonedEarly` | `runtime/src/dispatch/tick.ts:330-343` | Over every run no row is given up before five recorded failures of its lead and type since it was made, nor while its lane is down |
| `SendLanes.LaneDownIff` | `runtime/src/dispatch/tick.ts:549-559` | A lane is down exactly with no success in 86400000 ms and failures for three different leads |
| `SendLanes.AtMostTwoAbandoned` | `runtime/src/dispatch/tick.ts:549-606` | In a run of at most 24 hours with no success in a lane, at most 2 distinct leads are abandoned |
| `SendLanes.HaltedLaneTouchesNothing` | `runtime/src/dispatch/tick.ts:561-578` | A halted lane leaves row, cursor, counters and log as they were |
| `SendLanes.StaysQueuedIff` | `runtime/src/dispatch/tick.ts:317-463` | An approved row stays queued exactly when the tick reports nothing of it or held it for a reply routed earlier; a row not reported leaves cursors, stages, rows and the suppression list alone |
| `ContactLock.RoutingKeepsIff` | `control-plane/orchestrator/src/reply-router.ts:92-136` | Routing a reply keeps one campaign per person exactly when it ends the lead or nobody else contacts the person |
| `FunnelCases.RoutedReplyBreaksExclusion` | `control-plane/orchestrator/src/reply-router.ts:92-136` | A concrete world in which routing one reply puts a person in two campaigns |
| `ContactLock.ApprovedInviteKeepsIff` | `runtime/src/dispatch/tick.ts:403-445` | An approved invite that goes out, or finds one pending, keeps it exactly when nobody else contacts the person: this path does not consult the lock |
| `ContactLock.PassingMeansUnblocked` | `runtime/src/dispatch/tick.ts:240-252` | Passing the lock means no other campaign contacts the person |
| `ContactLock.EventExclusiveIff` | `runtime/src/dispatch/tick.ts:268-840` | An event keeps one campaign per person exactly when it is not an approved invite going out, or a reply routed from outside, for somebody contacted elsewhere |
| `ContactLock.OneCampaignPerPerson` | `runtime/src/dispatch/tick.ts:743-769` | Over every run whose approved invites and outside routings meet unblocked leads, one campaign at a time contacts a person |
| `ContactLock.GuardedRunsAreExclusive` | `runtime/src/dispatch/tick.ts:743-769` | Runs of dispatch steps, whatever their probes answer, acceptances, decisions, withdrawals, enrollments and removals need no hypothesis |
| `ContactLock.BothApprovedBothInvited` | `runtime/src/dispatch/tick.ts:427-445` | A concrete run from an empty history in which two approved invites put one person in two campaigns |
| `FunnelStores.FunnelStore.AdvanceTargetProgress` | `runtime/src/store/postgres-store.ts:266-271` | Exactly one cursor is rewritten |
| `FunnelStores.FunnelStore.SetTargetStage` | `control-plane/orchestrator/src/reply-router.ts:157-160` | Exactly one stage is rewritten; a missing row is no error |
| `FunnelStores.FunnelStore.CancelUndelivered` | `runtime/src/store/postgres-store.ts:298-310` | The update cancels exactly the lead's draft and approved rows |
| `FunnelStores.FunnelStore.StopFunnelFor` | `runtime/src/store/postgres-store.ts:284-310` | An active cursor goes terminal, a terminal one stays, undelivered rows are cancelled |
| `FunnelStores.FunnelStore.CountFailedSince` | `runtime/src/store/postgres-store.ts:67-80` | Counts failed rows of the lead and type since the instant |
| `FunnelStores.FunnelStore.LaneHealthSince` | `runtime/src/store/postgres-store.ts:81-103` | The number of successes of the lane since the instant, and its failed leads, each once |
| `FunnelStores.FunnelStore.ListApproved` | `runtime/src/dispatch/tick.ts:271-271` | Lists every approved row exactly once, oldest first |
| `FunnelStores.FunnelStore.DueTargetProgress` | `runtime/src/store/postgres-store.ts:223-236` | Lists exactly the in-progress cursors with no due time or one that has come, each once: immediate ones first, then by due time, ties by creation |
| `FunnelStores.FunnelStore.UpcomingTargetProgress` | `runtime/src/store/postgres-store.ts:238-243` | Lists exactly the in-progress cursors due later, each once |
| `FunnelStores.FunnelStore.AwaitingConnections` | `runtime/src/store/postgres-store.ts:245-250` | Lists exactly the cursors parked for acceptance, each once |
| `DispatchTicks.ReplyRouter.Route` | `control-plane/orchestrator/src/reply-router.ts:73-155` | Pull-out, suppression on Stop and restaging together perform the routing transition |
| `ReplyRoutes.RoutedReplyLeaves` | `control-plane/orchestrator/src/reply-router.ts:73-136` | Whatever event routes a reply leaves in_conversation exactly for interested and question, lost exactly for stop and not interested, replied otherwise; ends an active cursor, cancels the lead's unsent rows, suppresses the person exactly on stop, and touches nobody else |
| `DispatchTicks.DispatchTick.FindBlocker` | `runtime/src/dispatch/tick.ts:240-252` | The first listed row contacting the person from another campaign, or none |
| `DispatchTicks.DispatchTick.ResolveConnect` | `runtime/src/dispatch/tick.ts:484-516` | Success parks for acceptance, a no-op is terminal already-invited, anything else fails visibly |
| `DispatchTicks.DispatchTick.GuardMessage` | `runtime/src/dispatch/tick.ts:660-728` | The message guards in order, with the broken-lane exception for levels that would send at once |
| `DispatchTicks.DispatchTick.GuardLock` | `runtime/src/dispatch/tick.ts:743-769` | Hold behind a pending invite elsewhere, leave behind anything further |
| `DispatchTicks.DispatchTick.RunGuards` | `runtime/src/dispatch/tick.ts:655-769` | Stopped by the first guard that applies, otherwise untouched |
| `DispatchTicks.DispatchTick.GateAct` | `control-plane/mcp/src/gate.ts:96-141` | Queue a draft, refuse without a trace, or execute: exactly one of the three, in the order of the source (see HumanGate for which) |
| `DispatchTicks.DispatchTick.FireStep` | `runtime/src/dispatch/tick.ts:771-840` | The cursor ends where the gate's outcome puts it |
| `DispatchTicks.DispatchTick.Step` | `runtime/src/dispatch/tick.ts:609-840` | One sequence step performs the dispatch transition and reports its outcome |
| `Outcomes.BarredStepLeaves` | `runtime/src/dispatch/tick.ts:655-769` | A barred step holds or takes its lead out by the first reason that applies, with state, stage, rows and report of each spelled out |
| `Outcomes.ClearStepLeaves` | `runtime/src/dispatch/tick.ts:771-840` | A clear step leaves a draft and a parked cursor, nothing, or the cursor, stage, row and pile its drive calls for, and reports it |
| `Outcomes.OtherStepsLeave` | `runtime/src/dispatch/tick.ts:611-654` | No enabled step changes nothing, a finished sequence completes, a wait moves on by one |
| `Outcomes.BlockerIsFirst` | `runtime/src/dispatch/tick.ts:240-252` | The lock is decided by the first listed row contacting the person elsewhere |
| `DispatchTicks.DispatchTick.WaitStep` | `runtime/src/dispatch/tick.ts:627-654` | A wait advances one step and gates the next behind its own delay |
| `DispatchTicks.DispatchTick.LaneFailing` | `runtime/src/dispatch/tick.ts:549-559` | Failing exactly with no success and three distinct failed leads in 24 hours |
| `DispatchTicks.DispatchTick.AbandonSend` | `runtime/src/dispatch/tick.ts:580-606` | Row cancelled and cursor failed together |
| `DispatchTicks.DispatchTick.CancelSend` | `runtime/src/dispatch/tick.ts:523-536` | Row cancelled and lead pulled together |
| `DispatchTicks.DispatchTick.GuardSend` | `runtime/src/dispatch/tick.ts:348-394` | The pre-send guards in order, suppression for every type, and what is reported of a stopped row |
| `DispatchTicks.DispatchTick.Deliver` | `runtime/src/dispatch/tick.ts:396-463` | Executes the row's own body, settles row and cursor by the result, and reports it |
| `DispatchTicks.DispatchTick.TrySend` | `runtime/src/dispatch/tick.ts:317-463` | One approved row performs the send transition and reports its outcome, if any |
| `Outcomes.ApprovedRowLeaves` | `runtime/src/dispatch/tick.ts:317-463` | An approved row waits, is given up after five failures unless the lane is down, is cancelled with its reason, yields to a reply, or is executed, with everything each leaves and reports spelled out |
| `DispatchTicks.DispatchTick.RunTick` | `runtime/src/dispatch/tick.ts:268-310` | Every approved row is tried once, then every due cursor stepped once in due order, then every early draft that its level would not send at once; the outcomes are listed in that order |
| `TickRuns.StillSendable` | `runtime/src/dispatch/tick.ts:271-277` | Sending one row of the snapshot leaves the rest approved |
| `TickRuns.SteppableStays` | `runtime/src/dispatch/tick.ts:279-284` | Stepping one cursor leaves every other row of the snapshot as it was read |
| `TickRuns.SendsAreARun` | `runtime/src/dispatch/tick.ts:271-277` | The send loop is a run of single sends |
| `TickRuns.StepsAreARun` | `runtime/src/dispatch/tick.ts:279-284` | The step loop is a run of single steps |
| `TickRuns.EarlyPassSteps` | `runtime/src/dispatch/tick.ts:298-307` | The early pass steps exactly the cursors that want an early draft |
| `TickRuns.EarlyRowsAre` | `runtime/src/dispatch/tick.ts:298-307` | Those are the listed cursors on a message step whose campaign is not autonomous |
| `TickRuns.TickIsARun` | `runtime/src/dispatch/tick.ts:268-310` | A whole tick is one run, so every law about runs holds across it |
| `FunnelServices.AcceptanceTick.Release` | `runtime/src/dispatch/acceptance-tick.ts:212-268` | Stage, cursor and pile move together on acceptance; the outcome names the next step, or completion |
| `Outcomes.AcceptanceLeaves` | `runtime/src/dispatch/acceptance-tick.ts:232-268` | An acceptance leaves stage connected, the cursor moved on by the next step's delay, and one off the pile |
| `FunnelServices.AcceptanceTick.GroupByAccount` | `runtime/src/dispatch/acceptance-tick.ts:153-159` | Every parked row is in its own account's group, once |
| `FunnelServices.AcceptanceTick.RunTick` | `runtime/src/dispatch/acceptance-tick.ts:150-171` | Every parked row is looked at exactly once, on the schedule of its own account and next step, and reported once, in order, from its cursor as the pass found it |
| `FunnelServices.FlattenOnce` | `runtime/src/dispatch/acceptance-tick.ts:153-171` | Going account by account meets each row once |
| `FunnelServices.AcceptancesAreARun` | `runtime/src/dispatch/acceptance-tick.ts:150-171` | An acceptance pass is a run of single acceptances of the matched rows |
| `FunnelServices.ApprovalService.Decide` | `control-plane/orchestrator/src/approvals.ts:122-166` | Missing and already decided drafts are refused untouched; otherwise the decision transition |
| `FunnelServices.ApprovalService.RejectAndStop` | `runtime/src/adapters/mcp-ports.ts:169-195` | A rejection that counts also stops the parked cursor; one that fails stops nothing |
| `Outcomes.DecisionLeaves` | `control-plane/orchestrator/src/approvals.ts:122-166` | A decision counts once, approves with the body given or rejects, and skips the parked cursor only for a rejection that resolves it |
| `FunnelServices.LeadAdmin.ReleaseWithdrawn` | `runtime/src/executor/account-runner-executor.ts:400-409` | A parked lead leaves the funnel and the pile together; any other is left alone |
| `Outcomes.WithdrawalLeaves` | `runtime/src/executor/account-runner-executor.ts:400-409` | A withdrawal asked for does nothing without a permitting level, an open gate and a minted drive; otherwise it is rowed, and only a landed one of a parked lead loses it and shrinks the pile |
| `Outcomes.SweepLeaves` | `runtime/src/executor/withdraw-invitations.ts:283-296` | A swept lead is lost, its cursor skipped, and the pile one smaller |
| `Outcomes.RemovalLeaves` | `runtime/src/adapters/mcp-ports.ts:523-537` | A removal marks the row, loses it exactly where it had been contacted, skips an active cursor and cancels unsent rows |
| `Outcomes.EnrollmentLeaves` | `runtime/src/store/postgres-store.ts:188-206` | An enrollment makes a fresh cursor exactly where there is none, the row is not removed and nobody contacts the person elsewhere |
| `Outcomes.RestartLeaves` | `runtime/src/adapters/safety-state.ts:202-207` | A restart rebuilds every pile as the parked cursors of its account and touches nothing else |
| `FunnelServices.LeadAdmin.RemoveOne` | `runtime/src/adapters/mcp-ports.ts:523-537` | Cursor stopped, drafts cancelled, contacted stages lost, marker set |
| `FunnelServices.LeadAdmin.RemoveTargets` | `runtime/src/adapters/mcp-ports.ts:482-539` | Exactly the campaign's rows named by id, or sourced under a named urn, are removed one after the other; ids and urns that name nothing are reported in order |
| `FunnelServices.RemovalIsComplete` | `runtime/src/adapters/mcp-ports.ts:520-538` | After a removal each chosen lead is marked, out of the funnel, without a live draft, and lost exactly where it had been contacted; every other lead is untouched |
| `Sorting.StableSort` | `runtime/src/dispatch/reply-tick.ts:152-154` | Sorted, a permutation, and stable, as the language promises of its sort |
| `ReplyDetector.ArrivalKeepsIff` | `runtime/src/dispatch/reply-tick.ts:385-406` | Any single arrival leaves the marks good exactly when it is not before its thread's mark and, unless outbound or seen, after it |
| `ReplyDetector.TiedArrivalIsPassed` | `runtime/src/dispatch/reply-tick.ts:385-406` | A concrete mailbox: of two messages in one millisecond the one arriving after the read is never read |
| `ReplyDetector.HistoryAccounts` | `runtime/src/dispatch/reply-tick.ts:283-305` | A history accounts for its thread up to an instant exactly when all its messages up to it are seen |
| `ReplyDetector.StepKeepsGoodIff` | `runtime/src/dispatch/reply-tick.ts:283-305` | Arrivals, snippets and probes keep the marks sound; a thread read does exactly when no message of somebody else, unseen and not later than the row, is in its history |
| `ReplyDetector.UnmatchedMessageIsPassed` | `runtime/src/dispatch/reply-tick.ts:504-521` | A concrete read: a message the lead's identity does not match is passed by the mark unseen |
| `ReplyDetector.RunKeeps` | `runtime/src/dispatch/reply-tick.ts:229-345` | Over any interleaving of arrivals, thread reads, snippets and probes the marks stay sound and what is accounted for stays so |
| `ReplyDetector.SkipStaysSafe` | `runtime/src/dispatch/reply-tick.ts:241-286` | A thread skipped on the marks of an earlier state has nothing unseen up to its row's instant, then or later, whatever arrived since |
| `ReplyDetector.ReadStaysAccounted` | `runtime/src/dispatch/reply-tick.ts:288-306` | A thread read in full stays accounted for up to its row's instant |
| `ReplyDetector.RoutedAtMostOnce` | `runtime/src/dispatch/reply-tick.ts:523-536` | Over any interleaving no message is routed twice while the process lives |
| `ReplyDetector.RereadOnlyForNews` | `runtime/src/dispatch/reply-tick.ts:256-306` | Once read in full, a thread is due for reading again exactly for a row that names a later instant, or none |
| `ReplyDetector.MarksMoveByReads` | `runtime/src/dispatch/reply-tick.ts:288-306` | Only a full read of a dated row moves a mark, to that row's instant |
| `ReplyDetector.ReplyIsRoutedIff` | `runtime/src/dispatch/reply-tick.ts:292-303` | An unseen reply of the lead, in a history read in full, is marked seen, and is routed exactly when it is the newest message of the whole history, without a twin |
| `ReplyDetector.SeenIsNeverRouted` | `runtime/src/dispatch/reply-tick.ts:523-529` | Over any interleaving what was marked seen without being routed is never routed |
| `ReplyDetector.OlderReplyIsLost` | `runtime/src/dispatch/reply-tick.ts:292-303` | A concrete read: the lead's reply behind somebody else's newer message is marked seen and not routed |
| `ReplyDetector.SharedThreadRoutesOnce` | `runtime/src/dispatch/reply-tick.ts:268-303` | Of two leads sharing a thread only the first read with a given newest message routes it, whatever happens in between |
| `ReplyDetector.NewestIsLast` | `runtime/src/dispatch/reply-tick.ts:152-154` | The stable sort ends with the last listed of the latest messages |
| `ReplyDetector.OldestFirst` | `runtime/src/dispatch/reply-tick.ts:152-154` | A chronological permutation of the history, ties in the order they were read |
| `ReplyDetector.Detector.Handle` | `runtime/src/dispatch/reply-tick.ts:504-536` | Each outcome exactly: a matched unseen message is marked seen first, then routed if asked to, and a throw comes after both |
| `ReplyDetector.Detector.HandleAll` | `runtime/src/dispatch/reply-tick.ts:292-303` | Messages are handled up to the first failure, matched ones marked seen; the last is routed exactly when matched, unseen and listed once; it finishes exactly when none fails |
| `ReplyDetector.Detector.ReadThread` | `runtime/src/dispatch/reply-tick.ts:283-306` | One thread read is one transition: exactly the lead's messages marked seen, the newest of all routed exactly when it is the lead's and unseen, the mark set only once everything was handled |
| `ReplyDetector.Detector.ReadThreads` | `runtime/src/dispatch/reply-tick.ts:256-306` | A pass, each row matched against its own lead and messages arriving between reads, is a path of the state machine that reads, each once and in order, exactly the rows that name no instant, have no mark, or are past the mark the pass began with; clean reads leave every row dealt with accounted for |
| `ReplyDetector.Detector.ReadSnippets` | `runtime/src/dispatch/reply-tick.ts:314-320` | Exactly the matched unseen snippets are marked seen and routed, each once, up to the first failure; no mark moves |
| `ReplyDetector.Detector.ProbeThread` | `runtime/src/dispatch/reply-tick.ts:466-486` | Any inbound in the mapped thread is a reply; all are marked seen, the newest is routed exactly when unseen, no mark is written |
| `ReplyDetector.Detector.ProbeSnippets` | `runtime/src/dispatch/reply-tick.ts:488-500` | A reply is reported exactly when a matching snippet is newer than the last step, and exactly the unseen ones among those are routed |
| `Sweeper.SelectAged` | `runtime/src/executor/withdraw-invitations.ts:163-167` | Exactly the invites of known and sufficient age, oldest first, ties in the order they were listed |
| `Sweeper.AgedAre` | `runtime/src/executor/withdraw-invitations.ts:160-166` | An invite is selected as often as it is listed, exactly when its send time is known and not after the cutoff |
| `Sweeper.WaitsDouble` | `runtime/src/executor/withdraw-invitations.ts:190-199` | The j-th retry stands behind a wait of the first one times 2^j, up to the ceiling |
| `Sweeper.GivenUpIff` | `runtime/src/executor/withdraw-invitations.ts:190-204` | An invite is given up exactly when its first attempt and as many more as the ceiling says are throttled |
| `Sweeper.SweepSizeIsCappedIff` | `runtime/src/executor/withdraw-invitations.ts:169-169` | One sweep is bounded by 100 for every pile exactly when the caller's maximum is not negative |
| `Sweeper.ThrottledOutIff` | `runtime/src/executor/withdraw-invitations.ts:190-204` | An invite is given up exactly when all of its retries+1 attempts are throttled |
| `Sweeper.AttemptsEndInVerdict` | `runtime/src/executor/withdraw-invitations.ts:190-204` | Every attempt on an invite but its last was throttled, so the throttles counted are those that happened |
| `Sweeper.PacerNext` | `runtime/src/executor/withdraw-invitations.ts:211-214` | A withdrawal charges the account's pacer with its instant, a failure does not |
| `Sweeper.SweepIsCharges` | `runtime/src/executor/withdraw-invitations.ts:211-214` | For the rate limits a sweep is a string of pacer charges, one per withdrawal, each a transition of a run |
| `Sweeper.ReportAddsUp` | `runtime/src/executor/withdraw-invitations.ts:232-253` | Considered = withdrawn + failed + unresolved; nothing remains exactly when the sweep completed; withdrawals are an oldest-first subsequence |
| `Sweeper.ReleasesMatch` | `runtime/src/executor/withdraw-invitations.ts:213-217` | Each freed lead takes exactly one off the pile counter |
| `Sweeper.SweepIsARun` | `runtime/src/executor/withdraw-invitations.ts:283-296` | A sweep is a run of single releases |
| `Sweeper.StaleInvitationSweeper.AttemptInvite` | `runtime/src/executor/withdraw-invitations.ts:190-207` | Each retry of an invite follows a wait that doubles up to the ceiling; at most retries+1 attempts |
| `Sweeper.StaleInvitationSweeper.TakeTurn` | `runtime/src/executor/withdraw-invitations.ts:180-207` | A gap before every invite but the first, a cooldown exactly when the batch is full, then the attempts |
| `Sweeper.StaleInvitationSweeper.FreeLead` | `runtime/src/executor/withdraw-invitations.ts:283-296` | The first parked lead of the account matching the invite is freed, or none matches |
| `Sweeper.StaleInvitationSweeper.Sweep` | `runtime/src/executor/withdraw-invitations.ts:179-230` | The loop resolves invites in order until one is throttled out, counts each throttle once, charges the pacer per withdrawal, and frees the leads it counts |
| `Sweeper.StaleInvitationSweeper.WithdrawStale` | `runtime/src/executor/withdraw-invitations.ts:156-254` | The sweep selects the invites at least that many days old, oldest first, at most 100 of them, attempts them in order with cooldowns exactly at full batches, frees exactly the leads it reports, reports its throttles, and leaves the pacer at its latest withdrawal |
| `WorkingHours.NextWorkingInstant` | `control-plane/scheduler/src/working-hours.ts:57-74` | For a non-empty window the search ends within 192 of its 336 steps inside the window, at the first open hour, a whole number of hours on |
| `WorkingHours.LessThanAnHourLate` | `control-plane/scheduler/src/working-hours.ts:57-74` | The result is never before the first open instant and less than an hour after it |
| `WorkingHours.OpenStaysPut` | `control-plane/scheduler/src/working-hours.ts:57-62` | An instant already inside the window is returned unchanged |
| `WorkingHours.NextWorkingIsUnique` | `control-plane/scheduler/src/working-hours.ts:57-74` | The specification pins the result down |
| `Scheduler.NextRunAt` | `control-plane/scheduler/src/scheduler.ts:56-62` | In the window, and at least the minimum gap after both the scheduled time and now |
| `Scheduler.Order` | `control-plane/scheduler/src/scheduler.ts:88-91` | A permutation of the queue by scheduled time, then id |
| `Scheduler.ChoosePartitions` | `control-plane/scheduler/src/scheduler.ts:93-125` | Every queued action is chosen or skipped, exactly once |
| `Scheduler.ChosenAreSound` | `control-plane/scheduler/src/scheduler.ts:93-125` | Chosen actions carry distinct dedup keys, are due, allowed and in order |
| `Scheduler.EachInTurn` | `control-plane/scheduler/src/scheduler.ts:93-125` | Each action in turn is passed over for the first of duplicate, not yet due, budget, denied, deferred that holds, given those chosen before it, and chosen without one |
| `Scheduler.ChosenWithinCap` | `control-plane/scheduler/src/scheduler.ts:104-110` | At most max(0, cap - used) of a capped type are chosen |
| `Scheduler.MissingCapMeansNoLimit` | `control-plane/scheduler/src/scheduler.ts:104-110` | A type without a cap is never exhausted: all of its allowed, due, distinct actions run |
| `Scheduler.SkippedForCause` | `control-plane/scheduler/src/scheduler.ts:93-121` | Every skip reason is true of the finished batch |
| `Scheduler.BatchIgnoresQueueOrder` | `control-plane/scheduler/src/scheduler.ts:88-91` | With distinct ids the batch does not depend on the order of the queue |
| `Scheduler.DueActions` | `control-plane/scheduler/src/scheduler.ts:72-128` | The selection loop chooses from the ordered queue as specified, or nothing outside working hours, where every action is skipped for that |

## Left out

- Direct Act tools: drafts and sends made outside a sequence are not events of the funnel; they could give a lead a second live draft.
- Overlapping ticks: cursor writes by id carry no state check, so the funnel laws are about ticks that do not interleave inside one event.
- FunnelStores.FunnelStore.UpcomingTargetProgress: the order of the rows is unspecified in the store as well.
- DispatchTicks.DispatchTick.RunTick: models the outcomes without their texts and ids; the once-per-process log line of a halted lane is left out.
- DispatchTicks.DispatchTick.Step: does not model error messages, event payloads or name personalization; draft text is an input.
- Enrollment.Enroller.EnrollTargets: does not model company enrichment during enrollment; caps and schedules per type are inputs. It fails on an unknown id as the database's foreign key does; the in-memory store would store the row.
- FunnelServices.AcceptanceTick.RunTick: takes the identity match of a connection as an input and leaves name refreshes out, which touch nothing the funnel reads.
- AccountRunners.AccountRunner.RehydrateSafety: does not model the replay of safety signals that follows the counters.
- FunnelRuns.EventKept: a lead is enrolled under its own campaign; the enrollment call itself does not check that.
- ReplyDetector.Detector.Handle: does not model the stored transcript, the classifier or read pacing; list and inbox caches only make a row older, which rows may be.
- Sweeper.StaleInvitationSweeper.WithdrawStale: takes each request's answer and the clock at each withdrawal as inputs; lengths of gaps and cooldowns are not modelled, backoffs are.
- Scheduler.NextRunAt: takes the drawn gap as an input, with whole-second bounds.
- SafetyGates.SafetyGate.CanAct: models the gate with every counter wired; fallbacks for missing counters and the persisted budget are left out.
- Safety signals: the account state machine, soft-streak counting and signal replay are inputs to the gate here.
- Stage edits by an operator and list management, which write the same tables by hand.
- Time zones, daylight saving and floating-point jitter.
- Browser driving, sessions, vault, proxies, web UI, MCP and SQL plumbing, the language model, and the agent loop: foreign calls or no decision logic.
