/** The dispatch tick, step by step as it writes the store, against the world functions. */
module DispatchTicks {
  import opened Wrappers
  import opened Actions
  import WorkingSchedule
  import opened FunnelWorld
  import opened FunnelStores
  import opened TickRuns

  class ReplyRouter {
    const store: FunnelStore

    constructor (store: FunnelStore)
      ensures this.store == store
    {
      this.store := store;
    }

    /** Pull the lead out first, then restage by intent; Stop also suppresses the person. */
    method Route(t: TargetId, intent: Intent)
      modifies store
      ensures store.W() == RouteReply(old(store.W()), t, intent)
    {
      store.StopFunnelFor(t, ProgressState.Replied);
      match intent {
        case Stop =>
          if t in store.targets {
            store.suppressed := store.suppressed + {store.targets[t].person};
          }
          store.SetTargetStage(t, Lost);
        case NotInterested => store.SetTargetStage(t, Lost);
        case Interested | Question => store.SetTargetStage(t, InConversation);
        case Referral | Objection | NotNow | OutOfOffice => store.SetTargetStage(t, Stage.Replied);
      }
      store.Record(Routed(t));
    }
  }

  /** What the gate reports back for one request. */
  datatype GateOutcome = Queued(m: MessageId) | Refused | Executed(result: ActionResult) | Threw

  class DispatchTick {
    const store: FunnelStore
    const router: ReplyRouter
    const plan: Plan

    constructor (store: FunnelStore, router: ReplyRouter, plan: Plan)
      requires router.store == store
      ensures this.store == store && this.router == router && this.plan == plan
    {
      this.store := store;
      this.router := router;
      this.plan := plan;
    }

    /** The row that blocks this lead: the first one through which another campaign contacts its person. */
    method FindBlocker(t: TargetId, c: CampaignId, listing: seq<TargetId>) returns (r: Option<TargetId>)
      ensures r == HeldByOtherCampaign(store.W(), t, c, listing)
    {
      if t !in store.targets {
        return None;
      }
      var p := store.targets[t].person;
      var i := 0;
      while i < |listing|
        invariant 0 <= i <= |listing|
        invariant FirstBlocker(store.W(), c, p, listing) == FirstBlocker(store.W(), c, p, listing[i..])
      {
        var other := listing[i];
        if other in store.targets && store.targets[other].person == p && store.targets[other].campaign != c
           && Contacted(store.targets[other].stage) {
          return Some(other);
        }
        i := i + 1;
      }
      return None;
    }

    /** The reply probe: a reply it finds for the first time it also routes. */
    method RunProbe(t: TargetId, p: Probe)
      requires router.store == store
      modifies store
      ensures store.W() == ProbeEffect(old(store.W()), t, p)
    {
      if p.Answered? && p.route.Some? {
        router.Route(t, p.route.value);
      }
    }

    /** The executor as the tick sees it. */
    method Execute(t: TargetId, a: AccountId, kind: ActionType, x: Exec, via: Via)
      modifies store
      ensures store.W() == ExecEffect(old(store.W()), t, a, kind, x, via)
    {
      match x {
        case Ran(result) =>
          store.Record(Drove(store.clock, t, a, kind, result, via));
          if kind == ActionType.Connect && result == Success {
            store.InviteLanded(a);
          }
        case DriveThrew => store.Record(Drove(store.clock, t, a, kind, ActionResult.Failed, via));
        case NoDrive =>
        case MintRefused =>
      }
    }

    method FailProgress(t: TargetId)
      requires t in store.cursors
      modifies store
      ensures store.W() == FailCursor(old(store.W()), t)
    {
      store.AdvanceTargetProgress(t, store.cursors[t].(state := ProgressState.Failed, nextAt := None));
    }

    /** Where an invite leaves its cursor: parked on a success, already invited on a no-op, failed otherwise. */
    method ResolveConnect(t: TargetId, result: ActionResult) returns (o: StepOutcome)
      requires t in store.cursors
      modifies store
      ensures Result(store.W(), o) == ParkAfterConnect(old(store.W()), t, result)
    {
      if result == ActionResult.Skipped {
        store.SetTargetStage(t, Invited);
        store.AdvanceTargetProgress(t, store.cursors[t].(state := AlreadyInvited, nextAt := None, lastAt := Some(store.clock)));
        return WasInvited;
      }
      if result != Success {
        FailProgress(t);
        return FailedStep;
      }
      store.SetTargetStage(t, Invited);
      store.AdvanceTargetProgress(t, store.cursors[t].(state := AwaitingConnection, nextAt := None, lastAt := Some(store.clock)));
      return Invitation;
    }

    // ----- one sequence step

    method LevelNow(c: CampaignId) returns (level: AutonomyLevel)
      ensures level == LevelOf(store.W(), c)
    {
      level := if c in store.levels then store.levels[c] else Supervised;
    }

    /** The guards of a message step, in order; None lets it through. */
    method GuardMessage(t: TargetId, i: StepInput) returns (o: Option<StepOutcome>)
      requires router.store == store && t in store.cursors
      modifies store
      ensures var g := MessageGuard(old(store.W()), t, i);
              if g.Some? then o.Some? && Result(store.W(), o.value) == g.value else o.None? && store.W() == old(store.W())
    {
      if t in store.targets && StopStage(store.targets[t].stage) {
        store.StopFunnelFor(t, ProgressState.Replied);
        return Some(Held(StageStop));
      }
      if t !in store.targets || store.targets[t].stage != Connected {
        return Some(Held(NotConnected));
      }
      if store.targets[t].person in store.suppressed {
        store.StopFunnelFor(t, ProgressState.Replied);
        return Some(Held(Suppressed));
      }
      if i.probe.Broken? {
        var level := LevelNow(store.cursors[t].campaign);
        if MayExecuteDirectly(level, ActionType.Message) {
          return Some(Held(ProbeFailed));
        }
      } else if i.probe.Answered? {
        RunProbe(t, i.probe);
        return Some(Held(HasReplied));
      }
      return None;
    }

    /** The cross-campaign contact lock: hold behind a pending invite, leave behind anything further. */
    method GuardLock(t: TargetId, i: StepInput) returns (o: Option<StepOutcome>)
      requires t in store.cursors
      modifies store
      ensures var g := LockGuard(old(store.W()), t, i);
              if g.Some? then o.Some? && Result(store.W(), o.value) == g.value else o.None? && store.W() == old(store.W())
    {
      var blocker := FindBlocker(t, store.cursors[t].campaign, i.listing);
      if blocker.None? {
        return None;
      }
      if store.targets[blocker.value].stage == Invited {
        return Some(Held(CrossCampaignActive));
      }
      store.StopFunnelFor(t, ProgressState.Skipped);
      store.SetTargetStage(t, Lost);
      return Some(Held(CrossCampaignContacted));
    }

    method RunGuards(t: TargetId, kind: ActionType, i: StepInput) returns (o: Option<StepOutcome>)
      requires router.store == store && t in store.cursors
      modifies store
      ensures var g := Guard(old(store.W()), t, kind, i);
              if g.Some? then o.Some? && Result(store.W(), o.value) == g.value else o.None? && store.W() == old(store.W())
    {
      if kind == ActionType.Message {
        o := GuardMessage(t, i);
        if o.Some? {
          return;
        }
      }
      if kind == ActionType.Connect && t in store.targets && store.targets[t].person in store.suppressed {
        store.StopFunnelFor(t, ProgressState.Replied);
        return Some(Held(Suppressed));
      }
      if kind == ActionType.Connect || kind == ActionType.Message {
        o := GuardLock(t, i);
        return;
      }
      return None;
    }

    /** The single chokepoint: queue for a human, refuse, or execute. */
    method GateAct(t: TargetId, kind: ActionType, i: StepInput) returns (o: GateOutcome)
      requires t in store.cursors
      modifies store
      ensures var w := old(store.W());
              var c := w.cursors[t];
              var level := LevelOf(w, c.campaign);
              if !MayExecuteDirectly(level, kind) then
                o == GateOutcome.Queued(|w.messages|)
                && store.W() == Note(w.(messages := w.messages + [Message.Message(t, c.account, kind, i.draft, Draft, w.clock)]),
                                     Drafted(t, c.step, kind, |w.messages|))
              else if !GateOpen(plan, w, c.account, kind, i.restAllows) || i.exec.MintRefused? then o == Refused && store.W() == w
              else store.W() == ExecEffect(w, t, c.account, kind, i.exec, Direct(level, c.step))
                   && o == if i.exec.Ran? then GateOutcome.Executed(i.exec.result) else Threw
    {
      var c := store.cursors[t];
      var level := LevelNow(c.campaign);
      if !MayExecuteDirectly(level, kind) {
        var m := store.CreateDraft(t, c.account, kind, i.draft);
        store.Record(Drafted(t, c.step, kind, m));
        return GateOutcome.Queued(m);
      }
      if !GateOpenNow(c.account, kind, i.restAllows) || i.exec.MintRefused? {
        return Refused;
      }
      Execute(t, c.account, kind, i.exec, Direct(level, c.step));
      if i.exec.Ran? {
        return GateOutcome.Executed(i.exec.result);
      }
      return Threw;
    }

    predicate GateOpenNow(a: AccountId, kind: ActionType, restAllows: bool)
      reads store
      ensures GateOpenNow(a, kind, restAllows) == GateOpen(plan, store.W(), a, kind, restAllows)
    {
      restAllows && (kind == ActionType.Connect ==> (if a in store.outstanding then store.outstanding[a] else 0) < plan.outstandingCeiling)
    }

    /** Through the gate, then resolve the cursor from what came back. */
    method FireStep(t: TargetId, kind: ActionType, i: StepInput) returns (o: StepOutcome)
      requires t in store.cursors
      modifies store
      ensures Result(store.W(), o) == Fire(plan, old(store.W()), t, kind, i)
    {
      var c := store.cursors[t];
      var outcome := GateAct(t, kind, i);
      if outcome.Threw? {
        FailProgress(t);
        return FailedStep;
      }
      if outcome.Queued? {
        store.AdvanceTargetProgress(t, store.cursors[t].(state := AwaitingApproval));
        return Held(AwaitsHuman);
      }
      if outcome.Refused? {
        return Held(GateRefused);
      }
      if kind == ActionType.Connect {
        o := ResolveConnect(t, outcome.result);
        return;
      }
      if outcome.result != Success {
        FailProgress(t);
        return FailedStep;
      }
      store.AdvanceTargetProgress(t, AdvanceAfterStep(plan.Steps(c.campaign), c, store.clock, i.schedule));
      return StepOutcome.Executed;
    }

    /** What a tick does about a single cursor. */
    method Step(t: TargetId, i: StepInput) returns (o: StepOutcome)
      requires router.store == store && t in store.cursors
      modifies store
      ensures Result(store.W(), o) == DispatchStep(plan, old(store.W()), t, i)
    {
      store.clock := i.now;
      var c := store.cursors[t];
      var steps := plan.Steps(c.campaign);
      if |steps| == 0 {
        return NoSteps;
      }
      if c.step >= |steps| {
        store.AdvanceTargetProgress(t, c.(state := Completed, nextAt := None));
        return Exhausted;
      }
      if steps[c.step].kind == Delay {
        o := WaitStep(t, i);
        return;
      }
      var kind := steps[c.step].kind.action;
      var guarded := RunGuards(t, kind, i);
      if guarded.Some? {
        return guarded.value;
      }
      o := FireStep(t, kind, i);
    }

    /** A pure wait moves the cursor and gates the next step behind its own delay. */
    method WaitStep(t: TargetId, i: StepInput) returns (o: StepOutcome)
      requires t in store.cursors && i.now == store.clock
      requires var c := store.cursors[t]; c.step < |plan.Steps(c.campaign)| && plan.Steps(c.campaign)[c.step].kind == Delay
      modifies store
      ensures Result(store.W(), o) == DispatchStep(plan, old(store.W()), t, i)
    {
      var c := store.cursors[t];
      var steps := plan.Steps(c.campaign);
      var next := c.step + 1;
      if next >= |steps| {
        store.AdvanceTargetProgress(t, c.(step := next, state := Completed, nextAt := None, lastAt := Some(store.clock)));
        return CompletedByDelay;
      }
      store.AdvanceTargetProgress(t, c.(step := next,
                                        nextAt := WorkingSchedule.Due(store.clock, steps[next].delaySeconds, i.schedule),
                                        lastAt := Some(store.clock)));
      return Delayed;
    }

    // ----- approved sends

    method LaneFailing(a: AccountId, kind: ActionType) returns (failing: bool)
      ensures failing == LaneIsSystemicallyFailing(store.log, a, kind, store.clock)
    {
      var successes, failed := store.LaneHealthSince(a, kind, store.clock - LANE_HEALTH_WINDOW_MS);
      SucceededIffCounted(store.log, a, kind, store.clock - LANE_HEALTH_WINDOW_MS);
      failing := successes == 0 && |failed| >= SYSTEMIC_FAILURE_TARGETS;
    }

    method AbandonSend(m: MessageId)
      requires m < |store.messages|
      modifies store
      ensures store.W() == GiveUp(old(store.W()), m)
    {
      var msg := store.messages[m];
      store.SetMessageStatus(m, Cancelled);
      if msg.target in store.cursors {
        FailProgress(msg.target);
      }
      store.Record(Abandoned(store.clock, m, msg.target, msg.account, msg.kind));
    }

    method CancelSend(m: MessageId)
      requires m < |store.messages|
      modifies store
      ensures store.W() == CancelApproved(old(store.W()), m)
    {
      var t := store.messages[m].target;
      store.SetMessageStatus(m, Cancelled);
      store.StopFunnelFor(t, ProgressState.Replied);
    }

    /** The pre-send guards: whether the send is stopped, and what is reported of it. */
    method GuardSend(m: MessageId, i: SendInput) returns (stopped: bool, o: Option<SendOutcome>)
      requires router.store == store && m < |store.messages|
      modifies store
      ensures var g := SendGuard(old(store.W()), m, i);
              stopped == g.Some? && store.W() == if g.Some? then g.value else old(store.W())
      ensures stopped ==> o == GuardReport(old(store.W()), m, i)
    {
      var msg := store.messages[m];
      var t := msg.target;
      var suppressed := t in store.targets && store.targets[t].person in store.suppressed;
      if msg.kind != ActionType.Message {
        if suppressed {
          CancelSend(m);
        }
        return suppressed, Some(SendCancelled(PersonSuppressed));
      }
      var reason :=
        if t in store.cursors && store.cursors[t].state == ProgressState.Replied then Some(PersonReplied)
        else if t !in store.targets then Some(TargetMissing)
        else if store.targets[t].stage == Lost then Some(StageLost)
        else if suppressed then Some(PersonSuppressed)
        else None;
      if reason.Some? {
        CancelSend(m);
        return true, Some(SendCancelled(reason.value));
      }
      if t in store.cursors && store.cursors[t].nextAt.Some? && store.cursors[t].nextAt.value > store.clock {
        return true, None;
      }
      if i.probe.Broken? {
        return true, None;
      }
      if i.probe.Answered? {
        RunProbe(t, i.probe);
        return true, Some(SendHeld);
      }
      return false, None;
    }

    /** Execute the row's own body, then settle the row and the cursor. */
    method Deliver(m: MessageId, i: SendInput) returns (o: Option<SendOutcome>)
      requires m < |store.messages|
      modifies store
      ensures store.W() == SendResult(plan, old(store.W()), m, i) && o == DriveReport(old(store.W()), m, i)
    {
      var msg := store.messages[m];
      Execute(msg.target, msg.account, msg.kind, i.exec, ByApproval(m, msg.body));
      if !i.exec.Ran? {
        return None;
      }
      if i.exec.result == ActionResult.Skipped {
        store.SetMessageStatus(m, Cancelled);
        if msg.kind == ActionType.Connect && msg.target in store.cursors {
          var _ := ResolveConnect(msg.target, ActionResult.Skipped);
          return Some(InvitePending);
        }
        return Some(SendCancelled(NothingThere));
      }
      if i.exec.result != Success {
        return None;
      }
      store.SetMessageStatus(m, Sent);
      var settled := Settle(msg, i);
      return Some(settled);
    }

    /** After a delivery: an invite parks for acceptance, anything else moves the cursor on. */
    method Settle(msg: Message, i: SendInput) returns (o: SendOutcome)
      modifies store
      ensures var w := old(store.W());
              var t := msg.target;
              var staged := if msg.kind == ActionType.Connect then SetStage(w, t, Invited) else w;
              store.W() == if t in w.cursors && w.cursors[t].state == AwaitingApproval then
                             SetCursor(staged, t,
                               if msg.kind == ActionType.Connect
                               then w.cursors[t].(state := AwaitingConnection, nextAt := None, lastAt := Some(w.clock))
                               else AdvanceAfterStep(plan.Steps(w.cursors[t].campaign), w.cursors[t], w.clock, i.schedule))
                           else staged
      ensures o == if !(msg.target in old(store.cursors) && old(store.cursors)[msg.target].state == AwaitingApproval) then Delivered(-1)
                   else if msg.kind == ActionType.Connect then InviteParked
                   else Delivered(old(store.cursors)[msg.target].step + 1)
    {
      var t := msg.target;
      if msg.kind == ActionType.Connect {
        store.SetTargetStage(t, Invited);
      }
      if t in store.cursors && store.cursors[t].state == AwaitingApproval {
        var c := store.cursors[t];
        if msg.kind == ActionType.Connect {
          store.AdvanceTargetProgress(t, c.(state := AwaitingConnection, nextAt := None, lastAt := Some(store.clock)));
          return InviteParked;
        }
        var moved := AdvanceAfterStep(plan.Steps(c.campaign), c, store.clock, i.schedule);
        store.AdvanceTargetProgress(t, moved);
        return Delivered(moved.step);
      }
      return Delivered(-1);
    }

    /** Send one approved row, or wait, or give it up. */
    method TrySend(m: MessageId, i: SendInput) returns (o: Option<SendOutcome>)
      requires router.store == store && m < |store.messages|
      modifies store
      ensures store.W() == SendApproved(plan, old(store.W()), m, i) && o == SendReport(plan, old(store.W()), m, i)
    {
      store.clock := i.now;
      var msg := store.messages[m];
      if !GateOpenNow(msg.account, msg.kind, i.restAllows) {
        return None;
      }
      var failures := store.CountFailedSince(msg.target, msg.kind, msg.createdAt);
      if failures >= MAX_SEND_ATTEMPTS {
        var failing := LaneFailing(msg.account, msg.kind);
        if failing {
          return None;
        }
        AbandonSend(m);
        return Some(SendCancelled(AttemptsExhausted));
      }
      var stopped, why := GuardSend(m, i);
      if stopped {
        return why;
      }
      if i.exec.MintRefused? {
        return None;
      }
      o := Deliver(m, i);
    }

    /** One pass: approved sends, then due cursors, then drafts ahead of their time. */
    method RunTick(now: int, createdAt: TargetId -> int, sends: MessageId -> SendInput, steps: TargetId -> StepInput)
        returns (ran: nat, outcomes: seq<Report>, ids: seq<MessageId>, due: seq<TargetId>, upcoming: seq<TargetId>)
      requires router.store == store
      modifies store
      ensures ran == |due|
      ensures Once(due) && Once(upcoming)
      ensures forall m: MessageId :: m in ids <==> m < |old(store.messages)| && old(store.messages)[m].status == Approved
      ensures forall k :: 0 <= k < |ids| ==> ids[k] < |old(store.messages)|
      ensures forall j, k :: 0 <= j < k < |ids| ==> ids[j] < ids[k]
      ensures var w1 := SendAll(plan, old(store.W()), ids, sends);
              (forall t :: t in due <==> t in w1.cursors && IsDue(w1.cursors[t], now)) && InDueOrder(w1.cursors, createdAt, due)
      ensures forall k :: 0 <= k < |due| ==> due[k] in SendAll(plan, old(store.W()), ids, sends).cursors
      ensures var w1 := SendAll(plan, old(store.W()), ids, sends);
              var w2 := StepAll(plan, w1, due, steps);
              && (forall t :: t in upcoming <==> t in w2.cursors && IsUpcoming(w2.cursors[t], now))
              && (forall k :: 0 <= k < |upcoming| ==> upcoming[k] in w2.cursors)
              && store.W() == DraftEarly(plan, w2, upcoming, steps)
              && outcomes == SendReports(plan, old(store.W()), ids, sends) + StepReports(plan, w1, due, steps)
                             + EarlyReports(plan, w2, upcoming, steps)
    {
      ids := store.ListApproved();
      var sent := SendRows(ids, sends);
      due := store.DueTargetProgress(now, createdAt);
      var stepped := StepRows(due, steps);
      upcoming := store.UpcomingTargetProgress(now);
      var drafted := DraftRows(upcoming, steps);
      ran := |due|;
      outcomes := sent + stepped + drafted;
    }

    method SendRows(ids: seq<MessageId>, sends: MessageId -> SendInput) returns (outcomes: seq<Report>)
      requires router.store == store && forall k :: 0 <= k < |ids| ==> ids[k] < |store.messages|
      modifies store
      ensures store.W() == SendAll(plan, old(store.W()), ids, sends)
      ensures outcomes == SendReports(plan, old(store.W()), ids, sends)
    {
      var k := 0;
      ghost var before := store.W();
      outcomes := [];
      while k < |ids|
        invariant 0 <= k <= |ids| && forall j :: k <= j < |ids| ==> ids[j] < |store.messages|
        invariant SendAll(plan, store.W(), ids[k..], sends) == SendAll(plan, before, ids, sends)
        invariant outcomes + SendReports(plan, store.W(), ids[k..], sends) == SendReports(plan, before, ids, sends)
      {
        SendIsSteady(plan, store.W(), ids[k], sends(ids[k]));
        assert ids[k..][1..] == ids[k + 1..];
        var o := TrySend(ids[k], sends(ids[k]));
        outcomes := outcomes + ReportOf(ids[k], o);
        k := k + 1;
      }
    }

    method StepRows(rows: seq<TargetId>, steps: TargetId -> StepInput) returns (outcomes: seq<Report>)
      requires router.store == store && forall k :: 0 <= k < |rows| ==> rows[k] in store.cursors
      modifies store
      ensures store.W() == StepAll(plan, old(store.W()), rows, steps)
      ensures outcomes == StepReports(plan, old(store.W()), rows, steps)
    {
      var k := 0;
      ghost var before := store.W();
      outcomes := [];
      while k < |rows|
        invariant 0 <= k <= |rows| && forall j :: k <= j < |rows| ==> rows[j] in store.cursors
        invariant StepAll(plan, store.W(), rows[k..], steps) == StepAll(plan, before, rows, steps)
        invariant outcomes + StepReports(plan, store.W(), rows[k..], steps) == StepReports(plan, before, rows, steps)
      {
        StepIsSteady(plan, store.W(), rows[k], steps(rows[k]));
        assert rows[k..][1..] == rows[k + 1..];
        var o := Step(rows[k], steps(rows[k]));
        outcomes := outcomes + [OfStep(rows[k], o)];
        k := k + 1;
      }
    }

    method DraftRows(rows: seq<TargetId>, steps: TargetId -> StepInput) returns (outcomes: seq<Report>)
      requires router.store == store && forall k :: 0 <= k < |rows| ==> rows[k] in store.cursors
      modifies store
      ensures store.W() == DraftEarly(plan, old(store.W()), rows, steps)
      ensures outcomes == EarlyReports(plan, old(store.W()), rows, steps)
    {
      var k := 0;
      ghost var before := store.W();
      outcomes := [];
      while k < |rows|
        invariant 0 <= k <= |rows| && forall j :: k <= j < |rows| ==> rows[j] in store.cursors
        invariant DraftEarly(plan, store.W(), rows[k..], steps) == DraftEarly(plan, before, rows, steps)
        invariant outcomes + EarlyReports(plan, store.W(), rows[k..], steps) == EarlyReports(plan, before, rows, steps)
      {
        StepIsSteady(plan, store.W(), rows[k], steps(rows[k]));
        assert rows[k..][1..] == rows[k + 1..];
        var c := store.cursors[rows[k]];
        var plannedSteps := plan.Steps(c.campaign);
        if c.step < |plannedSteps| && plannedSteps[c.step].kind == Act(ActionType.Message) {
          var level := LevelNow(c.campaign);
          if !MayExecuteDirectly(level, ActionType.Message) {
            var o := Step(rows[k], steps(rows[k]));
            outcomes := outcomes + [OfStep(rows[k], o)];
          }
        }
        k := k + 1;
      }
    }
  }
}
