/** Whole runs of the funnel: any interleaving of dispatch steps, approved sends,
acceptances, routed replies, decisions, withdrawals, removals, enrollments, autonomy
changes and restarts, each one atomic. */
module FunnelRuns {
  import opened Wrappers
  import opened Actions
  import opened WorkingSchedule
  import opened FunnelWorld
  import opened FunnelLaws
  import opened FunnelMoves

  datatype Event =
    | Stepped(t: TargetId, step: StepInput)
    | SendTried(m: MessageId, send: SendInput)
    | InviteAccepted(t: TargetId, now: int, schedule: Schedule)
    | ReplyRouted(t: TargetId, intent: Intent)
    | DraftDecided(m: MessageId, decision: ApprovalDecision, body: Body, resume: bool)
    | InviteSwept(t: TargetId)
    | InviteWithdrawn(t: TargetId, restAllows: bool, exec: Exec)
    | LeadRemoved(t: TargetId)
    | LeadEnrolled(t: TargetId, account: AccountId, startAt: Option<int>, listing: seq<TargetId>)
    | AutonomySet(c: CampaignId, level: AutonomyLevel)
    | Restarted

  /** The store lists every row of the person behind t. */
  ghost predicate ListsEverybody(w: World, t: TargetId, listing: seq<TargetId>) {
    t in w.targets ==> forall u :: u in w.targets && w.targets[u].person == w.targets[t].person ==> u in listing
  }

  /** When a writer may run: the queries that feed it select exactly these rows. */
  ghost predicate Enabled(plan: Plan, w: World, e: Event) {
    match e
    case Stepped(t, i) => w.clock <= i.now && MayStep(plan, w, t, i.now) && ListsEverybody(w, t, i.listing)
    case SendTried(m, i) => w.clock <= i.now && m < |w.messages| && w.messages[m].status == Approved
    case InviteAccepted(t, now, _) => w.clock <= now && t in w.cursors && w.cursors[t].state == AwaitingConnection
    case ReplyRouted(t, _) => t in w.cursors
    case DraftDecided(m, _, _, _) => m < |w.messages|
    case InviteSwept(t) => t in w.cursors && w.cursors[t].state == AwaitingConnection
    case InviteWithdrawn(t, _, _) => t in w.cursors
    case LeadRemoved(_) => true
    case LeadEnrolled(t, _, _, listing) => ListsEverybody(w, t, listing)
    case AutonomySet(_, _) => true
    case Restarted => true
  }

  ghost function Apply(plan: Plan, w: World, e: Event): World
    requires Enabled(plan, w, e)
  {
    match e
    case Stepped(t, i) => DispatchStep(plan, w, t, i).w
    case SendTried(m, i) => SendApproved(plan, w, m, i)
    case InviteAccepted(t, now, schedule) => AcceptInvite(plan, w, t, now, schedule)
    case ReplyRouted(t, intent) => RouteReply(w, t, intent)
    case DraftDecided(m, d, body, resume) => DecideDraft(w, m, d, body, resume)
    case InviteSwept(t) => ReleaseParked(w, t, ProgressState.Skipped)
    case InviteWithdrawn(t, restAllows, x) => WithdrawInviteNow(plan, w, t, restAllows, x)
    case LeadRemoved(t) => RemoveTarget(w, t)
    case LeadEnrolled(t, a, startAt, listing) => EnrollTarget(w, t, a, startAt, listing)
    case AutonomySet(c, level) => w.(levels := w.levels[c := level])
    case Restarted => RestartProcess(w)
  }

  /** A run: worlds one event apart. */
  ghost predicate Run(plan: Plan, worlds: seq<World>, events: seq<Event>) {
    && |worlds| == |events| + 1
    && forall k :: 0 <= k < |events| ==>
         Enabled(plan, worlds[k], events[k]) && worlds[k + 1] == Apply(plan, worlds[k], events[k])
  }

  /** A sequence step is never a withdrawal. */
  predicate SequencePlan(plan: Plan) {
    forall c :: c in plan.steps ==> forall k :: 0 <= k < |plan.steps[c]| ==> plan.steps[c][k].kind != Act(WithdrawInvite)
  }

  // ----- every writer keeps the invariant

  lemma KeptNothing(plan: Plan, warm: set<TargetId>, w: World)
    requires Inv(plan, warm, w)
    ensures Kept(plan, warm, w, w)
  {
  }

  lemma RouteKept(plan: Plan, warm: set<TargetId>, w: World, t: TargetId, intent: Intent)
    requires Inv(plan, warm, w) && t in w.cursors
    ensures Kept(plan, warm, w, RouteReply(w, t, intent))
  {
    var left := StopFunnel(w, t, ProgressState.Replied);
    StopMove(plan, warm, w, t, ProgressState.Replied);
    var hushed := if intent == Stop && t in left.targets
                  then left.(suppressed := left.suppressed + {left.targets[t].person}) else left;
    SideMove(plan, warm, left, hushed);
    var staged := SetStage(hushed, t, StageFor(intent));
    StageMove(plan, warm, hushed, t, StageFor(intent));
    EndNote(plan, warm, staged, t);
    KeptTwice(plan, warm, w, left, hushed);
    KeptTwice(plan, warm, w, hushed, staged);
    KeptTwice(plan, warm, w, staged, RouteReply(w, t, intent));
  }

  lemma ProbeKept(plan: Plan, warm: set<TargetId>, w: World, t: TargetId, p: Probe)
    requires Inv(plan, warm, w) && t in w.cursors
    ensures Kept(plan, warm, w, ProbeEffect(w, t, p))
  {
    KeptNothing(plan, warm, w);
    if p.Answered? && p.route.Some? {
      RouteKept(plan, warm, w, t, p.route.value);
    }
  }

  lemma StopThenLost(plan: Plan, warm: set<TargetId>, w: World, t: TargetId)
    requires Inv(plan, warm, w) && t in w.cursors
    ensures Kept(plan, warm, w, SetStage(StopFunnel(w, t, ProgressState.Skipped), t, Lost))
  {
    var left := StopFunnel(w, t, ProgressState.Skipped);
    StopMove(plan, warm, w, t, ProgressState.Skipped);
    StageMove(plan, warm, left, t, Lost);
    KeptTwice(plan, warm, w, left, SetStage(left, t, Lost));
  }

  lemma MessageGuardKept(plan: Plan, warm: set<TargetId>, w: World, t: TargetId, i: StepInput)
    requires Inv(plan, warm, w) && t in w.cursors
    ensures MessageGuard(w, t, i).Some? ==> Kept(plan, warm, w, MessageGuard(w, t, i).value.w)
  {
    if StopStage(w.targets[t].stage) || IsSuppressed(w, t) {
      StopMove(plan, warm, w, t, ProgressState.Replied);
      KeptNothing(plan, warm, w);
    } else {
      KeptNothing(plan, warm, w);
      ProbeKept(plan, warm, w, t, i.probe);
    }
  }

  lemma LockGuardKept(plan: Plan, warm: set<TargetId>, w: World, t: TargetId, i: StepInput)
    requires Inv(plan, warm, w) && t in w.cursors
    ensures LockGuard(w, t, i).Some? ==> Kept(plan, warm, w, LockGuard(w, t, i).value.w)
  {
    KeptNothing(plan, warm, w);
    StopThenLost(plan, warm, w, t);
  }

  lemma GuardKept(plan: Plan, warm: set<TargetId>, w: World, t: TargetId, kind: ActionType, i: StepInput)
    requires Inv(plan, warm, w) && t in w.cursors
    ensures Guard(w, t, kind, i).Some? ==> Kept(plan, warm, w, Guard(w, t, kind, i).value.w)
    ensures Guard(w, t, kind, i).None? && kind == ActionType.Message ==> w.targets[t].stage == Connected
  {
    if kind == ActionType.Message {
      MessageGuardKept(plan, warm, w, t, i);
    } else if kind == ActionType.Connect && ConnectGuard(w, t).Some? {
      StopMove(plan, warm, w, t, ProgressState.Replied);
    }
    if kind in {ActionType.Message, ActionType.Connect} {
      LockGuardKept(plan, warm, w, t, i);
    }
  }

  lemma AdvanceIsForward(plan: Plan, c: Cursor, now: int, schedule: Schedule)
    requires Active(c.state) && c.step < |plan.Steps(c.campaign)|
    ensures var d := AdvanceAfterStep(plan.Steps(c.campaign), c, now, schedule);
            CursorForward(plan, c, d) && Past(d, c.step) && d.state in {InProgress, Completed}
  {
  }

  /** A driven step, with the pile counter bumped when an invite went out. */
  lemma DrivenKept(plan: Plan, warm: set<TargetId>, w: World, t: TargetId, kind: ActionType, result: ActionResult,
                   level: AutonomyLevel, d: Cursor, stage: Stage)
    requires Inv(plan, warm, w) && t in w.cursors && w.cursors[t].state == InProgress
    requires MayExecuteDirectly(level, kind) && kind != ActionType.WithdrawInvite
    requires kind == ActionType.Message ==> w.targets[t].stage == Connected
    requires CursorForward(plan, w.cursors[t], d) && Past(d, w.cursors[t].step) && d.state != AwaitingApproval
    requires d.state == AwaitingConnection ==> stage == Invited
    requires stage == Connected ==> w.targets[t].stage == Connected
    ensures var c := w.cursors[t];
            var ran := ExecEffect(w, t, c.account, kind, Ran(result), Direct(level, c.step));
            Kept(plan, warm, w, SetCursor(SetStage(ran, t, stage), t, d))
  {
    var c := w.cursors[t];
    var e := Drove(w.clock, t, c.account, kind, result, Direct(level, c.step));
    var moved := SetCursor(SetStage(Note(w, e), t, stage), t, d);
    DirectMove(plan, warm, w, t, kind, result, level, d, stage);
    var v := SetCursor(SetStage(ExecEffect(w, t, c.account, kind, Ran(result), Direct(level, c.step)), t, stage), t, d);
    assert v == moved.(outstanding := v.outstanding);
    SideMove(plan, warm, moved, v);
    KeptTwice(plan, warm, w, moved, v);
  }

  lemma SameStage(w: World, t: TargetId)
    requires t in w.targets
    ensures SetStage(w, t, w.targets[t].stage) == w
  {
    assert w.targets[t := w.targets[t].(stage := w.targets[t].stage)] == w.targets;
  }

  lemma FailedKept(plan: Plan, warm: set<TargetId>, w: World, t: TargetId, kind: ActionType, x: Exec, level: AutonomyLevel)
    requires Inv(plan, warm, w) && t in w.cursors && w.cursors[t].state == InProgress
    requires MayExecuteDirectly(level, kind) && kind != ActionType.WithdrawInvite
    requires kind == ActionType.Message ==> w.targets[t].stage == Connected
    requires x.Ran? ==> x.result != Success
    ensures Kept(plan, warm, w, FailCursor(ExecEffect(w, t, w.cursors[t].account, kind, x, Direct(level, w.cursors[t].step)), t))
  {
    var c := w.cursors[t];
    var d := c.(state := ProgressState.Failed, nextAt := None);
    var stage := w.targets[t].stage;
    var ran := ExecEffect(w, t, c.account, kind, x, Direct(level, c.step));
    SameStage(ran, t);
    if x.Ran? {
      DrivenKept(plan, warm, w, t, kind, x.result, level, d, stage);
    } else if x.DriveThrew? {
      DrivenKept(plan, warm, w, t, kind, ActionResult.Failed, level, d, stage);
    } else {
      CursorMove(plan, warm, w, t, d, stage);
    }
  }

  lemma FireKept(plan: Plan, warm: set<TargetId>, w: World, t: TargetId, kind: ActionType, i: StepInput)
    requires Inv(plan, warm, w) && t in w.cursors && w.cursors[t].state == InProgress
    requires AsksFor(plan, w.cursors[t], kind) && kind != ActionType.WithdrawInvite
    requires kind == ActionType.Message ==> w.targets[t].stage == Connected
    ensures Kept(plan, warm, w, Fire(plan, w, t, kind, i).w)
  {
    var c := w.cursors[t];
    var level := LevelOf(w, c.campaign);
    if !MayExecuteDirectly(level, kind) {
      QueueMove(plan, warm, w, t, kind, i.draft);
    } else if !GateOpen(plan, w, c.account, kind, i.restAllows) || i.exec.MintRefused? {
      KeptNothing(plan, warm, w);
    } else if !i.exec.Ran? || (i.exec.result != Success && !(kind == ActionType.Connect && i.exec.result == ActionResult.Skipped)) {
      FailedKept(plan, warm, w, t, kind, i.exec, level);
    } else if kind == ActionType.Connect {
      var d := c.(nextAt := None, lastAt := Some(w.clock), state := if i.exec.result == Success then AwaitingConnection else AlreadyInvited);
      DrivenKept(plan, warm, w, t, kind, i.exec.result, level, d, Invited);
    } else {
      AdvanceIsForward(plan, c, w.clock, i.schedule);
      DrivenKept(plan, warm, w, t, kind, Success, level, AdvanceAfterStep(plan.Steps(c.campaign), c, w.clock, i.schedule), w.targets[t].stage);
      SameStage(ExecEffect(w, t, c.account, kind, i.exec, Direct(level, c.step)), t);
    }
  }

  lemma QuietCursorKept(plan: Plan, warm: set<TargetId>, w: World, t: TargetId, d: Cursor)
    requires Inv(plan, warm, w) && t in w.cursors && w.cursors[t].state != AwaitingApproval
    requires CursorForward(plan, w.cursors[t], d) && d.state !in {AwaitingApproval, AwaitingConnection}
    ensures Kept(plan, warm, w, SetCursor(w, t, d))
  {
    SameStage(w, t);
    CursorMove(plan, warm, w, t, d, w.targets[t].stage);
  }

  lemma StepIgnoresClock(plan: Plan, w: World, t: TargetId, i: StepInput)
    requires t in w.cursors
    ensures DispatchStep(plan, At(w, i.now), t, i) == DispatchStep(plan, w, t, i)
  {
    assert At(At(w, i.now), i.now) == At(w, i.now);
  }

  lemma StepKept(plan: Plan, warm: set<TargetId>, w0: World, t: TargetId, i: StepInput)
    requires SequencePlan(plan) && Inv(plan, warm, w0) && w0.clock <= i.now
    requires t in w0.cursors && w0.cursors[t].state == InProgress
    ensures Kept(plan, warm, w0, DispatchStep(plan, w0, t, i).w)
  {
    var w := At(w0, i.now);
    ClockMove(plan, warm, w0, i.now);
    TimedStepKept(plan, warm, w, t, i);
    StepIgnoresClock(plan, w0, t, i);
    KeptTwice(plan, warm, w0, w, DispatchStep(plan, w, t, i).w);
  }

  lemma TimedStepKept(plan: Plan, warm: set<TargetId>, w: World, t: TargetId, i: StepInput)
    requires SequencePlan(plan) && Inv(plan, warm, w) && w.clock == i.now
    requires t in w.cursors && w.cursors[t].state == InProgress
    ensures Kept(plan, warm, w, DispatchStep(plan, w, t, i).w)
  {
    var c := w.cursors[t];
    var steps := plan.Steps(c.campaign);
    assert At(w, i.now) == w;
    if |steps| == 0 {
      KeptNothing(plan, warm, w);
    } else if c.step >= |steps| {
      QuietCursorKept(plan, warm, w, t, c.(state := Completed, nextAt := None));
    } else if steps[c.step].kind == Delay {
      QuietCursorKept(plan, warm, w, t, DispatchStep(plan, w, t, i).w.cursors[t]);
    } else {
      var kind := steps[c.step].kind.action;
      GuardKept(plan, warm, w, t, kind, i);
      if Guard(w, t, kind, i).None? {
        FireKept(plan, warm, w, t, kind, i);
      }
    }
  }

  lemma CancelKept(plan: Plan, warm: set<TargetId>, w: World, m: MessageId)
    requires Inv(plan, warm, w) && m < |w.messages| && w.messages[m].status == Approved
    ensures Kept(plan, warm, w, CancelApproved(w, m))
  {
    var dropped := SetStatus(w, m, Cancelled);
    DropMove(plan, warm, w, m);
    StopMove(plan, warm, dropped, w.messages[m].target, ProgressState.Replied);
    KeptTwice(plan, warm, w, dropped, CancelApproved(w, m));
  }

  lemma MissedKept(plan: Plan, warm: set<TargetId>, w: World, m: MessageId, x: Exec)
    requires Inv(plan, warm, w) && m < |w.messages| && w.messages[m].status == Approved
    requires x.Ran? ==> x.result != Success
    ensures var msg := w.messages[m];
            Kept(plan, warm, w, ExecEffect(w, msg.target, msg.account, msg.kind, x, ByApproval(m, msg.body)))
  {
    KeptNothing(plan, warm, w);
    if x.Ran? {
      SendMissed(plan, warm, w, m, x.result);
    } else if x.DriveThrew? {
      SendMissed(plan, warm, w, m, ActionResult.Failed);
    }
  }

  lemma LandedKept(plan: Plan, warm: set<TargetId>, w: World, m: MessageId, d: Cursor, stage: Stage)
    requires Inv(plan, warm, w) && m < |w.messages| && w.messages[m].status == Approved
    requires w.messages[m].target in w.cursors
    requires CursorForward(plan, w.cursors[w.messages[m].target], d) && d.state != AwaitingApproval
    requires d.state == AwaitingConnection ==> stage == Invited
    requires stage == Connected ==> w.targets[w.messages[m].target].stage == Connected
    ensures var msg := w.messages[m];
            var ran := ExecEffect(w, msg.target, msg.account, msg.kind, Ran(Success), ByApproval(m, msg.body));
            Kept(plan, warm, w, SetCursor(SetStage(SetStatus(ran, m, Sent), msg.target, stage), msg.target, d))
  {
    var msg := w.messages[m];
    var e := Drove(w.clock, msg.target, msg.account, msg.kind, Success, ByApproval(m, msg.body));
    var ran := ExecEffect(w, msg.target, msg.account, msg.kind, Ran(Success), ByApproval(m, msg.body));
    var moved := SetCursor(SetStage(SetStatus(Note(w, e), m, Sent), msg.target, stage), msg.target, d);
    var v := SetCursor(SetStage(SetStatus(ran, m, Sent), msg.target, stage), msg.target, d);
    SendLanded(plan, warm, w, m, d, stage);
    assert v == moved.(outstanding := v.outstanding);
    SideMove(plan, warm, moved, v);
    KeptTwice(plan, warm, w, moved, v);
  }

  lemma SkippedKept(plan: Plan, warm: set<TargetId>, w: World, m: MessageId, i: SendInput)
    requires Inv(plan, warm, w) && m < |w.messages| && w.messages[m].status == Approved
    requires i.exec == Ran(ActionResult.Skipped)
    ensures Kept(plan, warm, w, SendResult(plan, w, m, i))
  {
    var msg := w.messages[m];
    assert LiveIsParked(plan, w, m);
    var ran := ExecEffect(w, msg.target, msg.account, msg.kind, i.exec, ByApproval(m, msg.body));
    MissedKept(plan, warm, w, m, i.exec);
    var dropped := SetStatus(ran, m, Cancelled);
    DropMove(plan, warm, ran, m);
    KeptTwice(plan, warm, w, ran, dropped);
    if msg.kind == ActionType.Connect {
      OnlyDraftGone(plan, ran, dropped, m);
      var v := ParkAfterConnect(dropped, msg.target, ActionResult.Skipped).w;
      ParkedCursorMove(plan, warm, dropped, msg.target, v.cursors[msg.target], Invited);
      KeptTwice(plan, warm, w, dropped, v);
    }
  }

  lemma SuccessKept(plan: Plan, warm: set<TargetId>, w: World, m: MessageId, i: SendInput)
    requires Inv(plan, warm, w) && m < |w.messages| && w.messages[m].status == Approved
    requires i.exec == Ran(Success)
    ensures Kept(plan, warm, w, SendResult(plan, w, m, i))
  {
    var msg := w.messages[m];
    assert LiveIsParked(plan, w, m);
    var c := w.cursors[msg.target];
    if msg.kind == ActionType.Connect {
      LandedKept(plan, warm, w, m, c.(state := AwaitingConnection, nextAt := None, lastAt := Some(w.clock)), Invited);
    } else {
      AdvanceIsForward(plan, c, w.clock, i.schedule);
      LandedKept(plan, warm, w, m, AdvanceAfterStep(plan.Steps(c.campaign), c, w.clock, i.schedule), w.targets[msg.target].stage);
      SameStage(SetStatus(ExecEffect(w, msg.target, msg.account, msg.kind, i.exec, ByApproval(m, msg.body)), m, Sent), msg.target);
    }
  }

  /** A send that is stopped either waits, is cancelled, or had its reply routed. */
  lemma SendGuardShape(w: World, m: MessageId, i: SendInput)
    requires m < |w.messages| && SendGuard(w, m, i).Some?
    ensures var v := SendGuard(w, m, i).value;
            v == w || v == CancelApproved(w, m) || v == ProbeEffect(w, w.messages[m].target, i.probe)
  {
  }

  lemma SendGuardKept(plan: Plan, warm: set<TargetId>, w: World, m: MessageId, i: SendInput)
    requires Inv(plan, warm, w) && m < |w.messages| && w.messages[m].status == Approved && SendGuard(w, m, i).Some?
    ensures Kept(plan, warm, w, SendGuard(w, m, i).value)
  {
    SendGuardShape(w, m, i);
    var v := SendGuard(w, m, i).value;
    if v == w {
      KeptNothing(plan, warm, w);
    } else if v == CancelApproved(w, m) {
      CancelKept(plan, warm, w, m);
    } else {
      ProbeKept(plan, warm, w, w.messages[m].target, i.probe);
    }
  }

  lemma SendResultKept(plan: Plan, warm: set<TargetId>, w: World, m: MessageId, i: SendInput)
    requires Inv(plan, warm, w) && m < |w.messages| && w.messages[m].status == Approved
    ensures Kept(plan, warm, w, SendResult(plan, w, m, i))
  {
    if i.exec == Ran(Success) {
      SuccessKept(plan, warm, w, m, i);
    } else if i.exec == Ran(ActionResult.Skipped) {
      SkippedKept(plan, warm, w, m, i);
    } else {
      MissedKept(plan, warm, w, m, i.exec);
    }
  }

  lemma SendKept(plan: Plan, warm: set<TargetId>, w0: World, m: MessageId, i: SendInput)
    requires Inv(plan, warm, w0) && w0.clock <= i.now && m < |w0.messages| && w0.messages[m].status == Approved
    ensures Kept(plan, warm, w0, SendApproved(plan, w0, m, i))
  {
    var w := At(w0, i.now);
    ClockMove(plan, warm, w0, i.now);
    TimedSendKept(plan, warm, w, m, i);
    KeptTwice(plan, warm, w0, w, SendApproved(plan, w0, m, i));
  }

  lemma TimedSendKept(plan: Plan, warm: set<TargetId>, w: World, m: MessageId, i: SendInput)
    requires Inv(plan, warm, w) && w.clock == i.now && m < |w.messages| && w.messages[m].status == Approved
    ensures Kept(plan, warm, w, SendApproved(plan, w, m, i))
  {
    var msg := w.messages[m];
    assert At(w, i.now) == w;
    KeptNothing(plan, warm, w);
    if CountFailed(w.log, msg.target, msg.kind, msg.createdAt) >= MAX_SEND_ATTEMPTS {
      AbandonMove(plan, warm, w, m);
    } else if SendGuard(w, m, i).Some? {
      SendGuardKept(plan, warm, w, m, i);
    } else {
      SendResultKept(plan, warm, w, m, i);
    }
  }

  lemma AcceptKept(plan: Plan, warm: set<TargetId>, w0: World, t: TargetId, now: int, schedule: Schedule)
    requires Inv(plan, warm, w0) && w0.clock <= now && t in w0.cursors && w0.cursors[t].state == AwaitingConnection
    ensures Kept(plan, warm, w0, AcceptInvite(plan, w0, t, now, schedule))
  {
    var w := At(w0, now);
    ClockMove(plan, warm, w0, now);
    var c := w.cursors[t];
    var d := AdvanceAfterStep(plan.Steps(c.campaign), c, now, schedule);
    var moved := Note(SetCursor(SetStage(w, t, Connected), t, d), Accepted(t));
    AcceptMove(plan, warm, w, t, d);
    var v := AcceptInvite(plan, w0, t, now, schedule);
    assert v == moved.(outstanding := v.outstanding);
    SideMove(plan, warm, moved, v);
    KeptTwice(plan, warm, w0, w, moved);
    KeptTwice(plan, warm, w0, moved, v);
  }

  lemma DecideKept(plan: Plan, warm: set<TargetId>, w: World, m: MessageId, d: ApprovalDecision, body: Body, resume: bool)
    requires Inv(plan, warm, w) && m < |w.messages|
    ensures Kept(plan, warm, w, DecideDraft(w, m, d, body, resume))
  {
    KeptNothing(plan, warm, w);
    if w.messages[m].status == Draft {
      var t := w.messages[m].target;
      assert LiveIsParked(plan, w, m);
      var decided := DecideDraft(w, m, d, body, false);
      DecideMove(plan, warm, w, m, d, body);
      if d == Reject && resume {
        OnlyDraftGone(plan, w, decided, m);
        var v := DecideDraft(w, m, d, body, true);
        ParkedCursorMove(plan, warm, decided, t, v.cursors[t], w.targets[t].stage);
        SameStage(decided, t);
        KeptTwice(plan, warm, w, decided, v);
      }
    }
  }

  lemma ReleaseKept(plan: Plan, warm: set<TargetId>, w: World, t: TargetId, terminal: ProgressState)
    requires Inv(plan, warm, w) && t in w.cursors && w.cursors[t].state == AwaitingConnection && !Active(terminal)
    ensures Kept(plan, warm, w, ReleaseParked(w, t, terminal))
  {
    var c := w.cursors[t];
    var d := c.(state := terminal, nextAt := None);
    var moved := SetCursor(SetStage(w, t, Lost), t, d);
    CursorMove(plan, warm, w, t, d, Lost);
    SideMove(plan, warm, moved, ReleaseOutstanding(moved, c.account));
    KeptTwice(plan, warm, w, moved, ReleaseParked(w, t, terminal));
  }

  lemma WithdrawKept(plan: Plan, warm: set<TargetId>, w: World, t: TargetId, restAllows: bool, x: Exec)
    requires Inv(plan, warm, w) && t in w.cursors
    ensures Kept(plan, warm, w, WithdrawInviteNow(plan, w, t, restAllows, x))
  {
    KeptNothing(plan, warm, w);
    var c := w.cursors[t];
    var level := LevelOf(w, c.campaign);
    if MayExecuteDirectly(level, ActionType.WithdrawInvite) && restAllows {
      if x.Ran? {
        OperatorMove(plan, warm, w, t, c.account, x.result, level);
      } else if x.DriveThrew? {
        OperatorMove(plan, warm, w, t, c.account, ActionResult.Failed, level);
      }
      if x == Ran(Success) && c.state == AwaitingConnection {
        var ran := ExecEffect(w, t, c.account, ActionType.WithdrawInvite, x, Operator(level));
        ReleaseKept(plan, warm, ran, t, Withdrawn);
        KeptTwice(plan, warm, w, ran, ReleaseParked(ran, t, Withdrawn));
      }
    }
  }

  lemma RemoveKept(plan: Plan, warm: set<TargetId>, w: World, t: TargetId)
    requires Inv(plan, warm, w)
    ensures Kept(plan, warm, w, RemoveTarget(w, t))
  {
    KeptNothing(plan, warm, w);
    if t in w.targets {
      var left := StopFunnel(w, t, ProgressState.Skipped);
      var staged := if Contacted(w.targets[t].stage) then SetStage(left, t, Lost) else left;
      var flagged := staged.(targets := staged.targets[t := staged.targets[t].(removed := true)]);
      if t in w.cursors {
        StopMove(plan, warm, w, t, ProgressState.Skipped);
        assert !Active(left.cursors[t].state);
        StageMove(plan, warm, left, t, Lost);
        KeptNothing(plan, warm, left);
        KeptTwice(plan, warm, w, left, staged);
        RemovedFlag(plan, warm, staged, t);
        KeptTwice(plan, warm, w, staged, flagged);
        EndNote(plan, warm, flagged, t);
      } else {
        StopNobody(plan, warm, w, t, ProgressState.Skipped);
        StrangerStage(plan, warm, w, t);
        RemovedFlag(plan, warm, staged, t);
        KeptTwice(plan, warm, w, staged, flagged);
        RemovedStranger(plan, warm, flagged, t);
      }
      KeptTwice(plan, warm, w, flagged, Note(flagged, Removed(t)));
    }
  }

  /** A stage change of somebody never enrolled. */
  lemma StrangerStage(plan: Plan, warm: set<TargetId>, w: World, t: TargetId)
    requires Inv(plan, warm, w) && t in w.targets && t !in w.cursors
    ensures Kept(plan, warm, w, SetStage(w, t, Lost))
  {
    var v := SetStage(w, t, Lost);
    LogKept(plan, warm, w, v);
    forall m | 0 <= m < |v.messages| && Live(v.messages[m].status) ensures LiveIsParked(plan, v, m) {
      assert LiveIsParked(plan, w, m);
    }
  }

  lemma EnrollKept(plan: Plan, warm: set<TargetId>, w: World, t: TargetId, a: AccountId, startAt: Option<int>, listing: seq<TargetId>)
    requires Inv(plan, warm, w)
    ensures Kept(plan, warm, w, EnrollTarget(w, t, a, startAt, listing))
  {
    KeptNothing(plan, warm, w);
    if EnrollTarget(w, t, a, startAt, listing) != w {
      EnrollMove(plan, warm, w, t, Cursor(w.targets[t].campaign, a, InProgress, 0, startAt, None));
    }
  }

  /** Every event keeps the invariant and moves the tables forward. */
  lemma EventKept(plan: Plan, warm: set<TargetId>, w: World, e: Event)
    requires SequencePlan(plan) && Inv(plan, warm, w) && Enabled(plan, w, e)
    ensures Kept(plan, warm, w, Apply(plan, w, e))
  {
    match e
    case Stepped(t, i) => StepKept(plan, warm, w, t, i);
    case SendTried(m, i) => SendKept(plan, warm, w, m, i);
    case InviteAccepted(t, now, schedule) => AcceptKept(plan, warm, w, t, now, schedule);
    case ReplyRouted(t, intent) => RouteKept(plan, warm, w, t, intent);
    case DraftDecided(m, d, body, resume) => DecideKept(plan, warm, w, m, d, body, resume);
    case InviteSwept(t) => ReleaseKept(plan, warm, w, t, ProgressState.Skipped);
    case InviteWithdrawn(t, restAllows, x) => WithdrawKept(plan, warm, w, t, restAllows, x);
    case LeadRemoved(t) => RemoveKept(plan, warm, w, t);
    case LeadEnrolled(t, a, startAt, listing) => EnrollKept(plan, warm, w, t, a, startAt, listing);
    case AutonomySet(c, level) => SideMove(plan, warm, w, Apply(plan, w, e));
    case Restarted => SideMove(plan, warm, w, Apply(plan, w, e));
  }

  /** Over a run: the invariant everywhere, and every later world further on than every earlier one. */
  lemma {:induction false} RunKept(plan: Plan, warm: set<TargetId>, worlds: seq<World>, events: seq<Event>, i: nat, j: nat)
    requires SequencePlan(plan) && Run(plan, worlds, events) && Inv(plan, warm, worlds[0])
    requires i <= j < |worlds|
    ensures Inv(plan, warm, worlds[i]) && Kept(plan, warm, worlds[i], worlds[j])
    decreases j
  {
    if j == 0 {
      KeptNothing(plan, warm, worlds[0]);
    } else if i == j {
      RunKept(plan, warm, worlds, events, j - 1, j - 1);
      EventKept(plan, warm, worlds[j - 1], events[j - 1]);
      KeptNothing(plan, warm, worlds[j]);
    } else {
      RunKept(plan, warm, worlds, events, i, j - 1);
      EventKept(plan, warm, worlds[j - 1], events[j - 1]);
      KeptTwice(plan, warm, worlds[i], worlds[j - 1], worlds[j]);
    }
  }
}
