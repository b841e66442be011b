/** What each event leaves of its lead, spelled out: cursor, stage, rows, pile. States, stages and
statuses are named one by one; nothing here is stated through the predicates or the
transition functions the writers are built of. */
module Outcomes {
  import opened Wrappers
  import opened Actions
  import opened WorkingSchedule
  import opened FunnelWorld
  import opened HumanGate
  import opened DueTimes
  import opened ReplyRoutes
  import opened SendLanes

  // ----- vocabulary

  /** Nobody but lead t is touched: other cursors and stages, and every table it does not name. */
  ghost predicate OnlyLeadMoved(w: World, v: World, t: TargetId) {
    && v.cursors.Keys == w.cursors.Keys && v.targets.Keys == w.targets.Keys && v.levels == w.levels
    && (forall u :: u in w.cursors && u != t ==> v.cursors[u] == w.cursors[u])
    && (forall u :: u in w.targets && u != t ==> v.targets[u] == w.targets[u])
  }

  /** The lead's stage, and nothing else of its row. */
  predicate StageIs(w: World, v: World, t: TargetId, stage: Stage) {
    t in w.targets ==> t in v.targets && v.targets[t] == w.targets[t].(stage := stage)
  }

  predicate StageStays(w: World, v: World, t: TargetId) {
    t in w.targets ==> t in v.targets && v.targets[t] == w.targets[t]
  }

  /** The lead is taken out: an active cursor ends in the given state, its unsent rows are cancelled. */
  ghost predicate TakenOut(w: World, v: World, t: TargetId, end: ProgressState) {
    && OnlyLeadMoved(w, v, t) && RowsAfter(w, v, t)
    && v.log == w.log && v.suppressed == w.suppressed && v.outstanding == w.outstanding
    && (t in w.cursors ==>
          v.cursors[t] == if w.cursors[t].state in {NotStarted, InProgress, AwaitingApproval, AwaitingConnection}
                          then w.cursors[t].(state := end, nextAt := None) else w.cursors[t])
  }

  lemma StoppingTakesOut(w: World, t: TargetId, end: ProgressState)
    ensures TakenOut(w, StopFunnel(w, t, end), t, end) && StopFunnel(w, t, end).targets == w.targets
  {
  }

  /** The first listed row that contacts the person elsewhere. */
  ghost predicate FirstContact(w: World, t: TargetId, c: CampaignId, listing: seq<TargetId>, u: TargetId) {
    exists k :: 0 <= k < |listing| && listing[k] == u && ContactedElsewhere(w, t, c, u)
                && forall j :: 0 <= j < k ==> !ContactedElsewhere(w, t, c, listing[j])
  }

  lemma {:induction false} BlockerIsFirst(w: World, t: TargetId, c: CampaignId, listing: seq<TargetId>)
    requires t in w.targets
    ensures var b := FirstBlocker(w, c, w.targets[t].person, listing);
            && (b.Some? ==> FirstContact(w, t, c, listing, b.value))
            && (forall u: TargetId :: FirstContact(w, t, c, listing, u) ==> b == Some(u))
  {
    var b := FirstBlocker(w, c, w.targets[t].person, listing);
    if listing != [] && !ContactedElsewhere(w, t, c, listing[0]) {
      BlockerIsFirst(w, t, c, listing[1..]);
      if b.Some? {
        var k :| 0 <= k < |listing[1..]| && listing[1..][k] == b.value && ContactedElsewhere(w, t, c, b.value)
                 && forall j :: 0 <= j < k ==> !ContactedElsewhere(w, t, c, listing[1..][j]);
        assert listing[k + 1] == b.value;
        assert forall j :: 0 < j < k + 1 ==> listing[j] == listing[1..][j - 1];
      }
      forall u: TargetId | FirstContact(w, t, c, listing, u) ensures b == Some(u) {
        var k :| 0 <= k < |listing| && listing[k] == u && ContactedElsewhere(w, t, c, u)
                 && forall j :: 0 <= j < k ==> !ContactedElsewhere(w, t, c, listing[j]);
        assert listing[1..][k - 1] == u;
        assert forall j :: 0 <= j < k - 1 ==> listing[1..][j] == listing[j + 1];
        assert FirstContact(w, t, c, listing[1..], u);
      }
    } else if listing != [] {
      assert listing[0] == listing[0] && b == Some(listing[0]);
    }
  }

  // ----- a step that may not act

  /** Why a step on a message or an invite is barred, what that leaves, and what is reported. */
  ghost predicate BarredLeaves(w: World, r: Result, t: TargetId, kind: ActionType, i: StepInput)
    requires t in w.cursors
  {
    if kind == ActionType.Message && t in w.targets && w.targets[t].stage in {InConversation, Stage.Replied, Won, Lost} then
      TakenOut(w, r.w, t, ProgressState.Replied) && StageStays(w, r.w, t) && r.outcome == Held(StageStop)
    else if kind == ActionType.Message && (t !in w.targets || w.targets[t].stage != Connected) then r == Result(w, Held(NotConnected))
    else if Hushed(w, t) then
      TakenOut(w, r.w, t, ProgressState.Replied) && StageStays(w, r.w, t) && r.outcome == Held(Suppressed)
    else if kind == ActionType.Message && i.probe.Broken? && RunsAt(w, w.cursors[t].campaign, Autonomous) then
      r == Result(w, Held(ProbeFailed))
    else if kind == ActionType.Message && i.probe.Answered? then
      && r.outcome == Held(HasReplied)
      && if i.probe.route.Some? then LeavesByReply(w, r.w, t, i.probe.route.value) else r.w == w
    else LockLeaves(w, r, t, w.cursors[t].campaign, i.listing)
  }

  /** The first contact elsewhere decides: behind an open invite the lead waits, behind anything further it is lost. */
  ghost predicate LockLeaves(w: World, r: Result, t: TargetId, c: CampaignId, listing: seq<TargetId>) {
    forall u: TargetId :: FirstContact(w, t, c, listing, u) ==>
      if w.targets[u].stage == Invited then r == Result(w, Held(CrossCampaignActive))
      else TakenOut(w, r.w, t, ProgressState.Skipped) && StageIs(w, r.w, t, Lost) && r.outcome == Held(CrossCampaignContacted)
  }

  /** A barred step holds, or takes its lead out, by the first reason that applies. */
  lemma BarredStepLeaves(plan: Plan, w: World, t: TargetId, kind: ActionType, i: StepInput)
    requires t in w.cursors && StandsOn(plan, w.cursors[t], kind) && !WayIsClear(w, t, kind, i)
    ensures BarredLeaves(w.(clock := i.now), DispatchStep(plan, w, t, i), t, kind, i)
  {
    var now := At(w, i.now);
    assert plan.Steps(w.cursors[t].campaign) == plan.steps[w.cursors[t].campaign];
    GuardsPassWhenClear(now, t, kind, i);
    assert WayIsClear(now, t, kind, i) <==> WayIsClear(w, t, kind, i);
    GuardLeaves(now, t, kind, i);
  }

  lemma GuardLeaves(w: World, t: TargetId, kind: ActionType, i: StepInput)
    requires t in w.cursors && Guard(w, t, kind, i).Some?
    ensures BarredLeaves(w, Guard(w, t, kind, i).value, t, kind, i)
  {
    if kind == ActionType.Message && MessageGuard(w, t, i).Some? {
      MessageGuardLeaves(w, t, i);
    } else if kind == ActionType.Connect && ConnectGuard(w, t).Some? {
      StoppingTakesOut(w, t, ProgressState.Replied);
    } else {
      LockGuardLeaves(w, t, i);
      assert kind == ActionType.Message ==> MessageGuard(w, t, i).None?;
    }
  }

  lemma MessageGuardLeaves(w: World, t: TargetId, i: StepInput)
    requires t in w.cursors && MessageGuard(w, t, i).Some?
    ensures BarredLeaves(w, MessageGuard(w, t, i).value, t, ActionType.Message, i)
  {
    StoppingTakesOut(w, t, ProgressState.Replied);
    if i.probe.Answered? && i.probe.route.Some? {
      RoutingLeaves(w, t, i.probe.route.value);
    }
  }

  lemma LockGuardLeaves(w: World, t: TargetId, i: StepInput)
    requires t in w.cursors && LockGuard(w, t, i).Some?
    ensures LockLeaves(w, LockGuard(w, t, i).value, t, w.cursors[t].campaign, i.listing)
  {
    BlockerIsFirst(w, t, w.cursors[t].campaign, i.listing);
    StoppingTakesOut(w, t, ProgressState.Skipped);
  }

  // ----- what a drive leaves

  /** The pile grows by one for an invite that went out, and by nothing else. */
  predicate PileAfter(w: World, v: World, a: AccountId, more: bool) {
    v.outstanding == if more then w.outstanding[a := (if a in w.outstanding then w.outstanding[a] else 0) + 1] else w.outstanding
  }

  /** A direct drive, by what its row says. */
  ghost predicate DriveLeaves(plan: Plan, w: World, r: Result, t: TargetId, kind: ActionType, i: StepInput)
    requires t in w.cursors
  {
    var c, v := w.cursors[t], r.w;
    && r.outcome == (if i.exec == Ran(Success) then (if kind == ActionType.Connect then Invitation else Executed)
                     else if i.exec == Ran(ActionResult.Skipped) && kind == ActionType.Connect then WasInvited else FailedStep)
    && OnlyLeadMoved(w, v, t) && v.messages == w.messages && v.suppressed == w.suppressed && v.clock == w.clock
    && PileAfter(w, v, c.account, kind == ActionType.Connect && i.exec == Ran(Success))
    && if kind == ActionType.Connect && i.exec == Ran(Success) then
         v.cursors[t] == c.(state := AwaitingConnection, nextAt := None, lastAt := Some(w.clock)) && StageIs(w, v, t, Invited)
       else if kind == ActionType.Connect && i.exec == Ran(ActionResult.Skipped) then
         v.cursors[t] == c.(state := AlreadyInvited, nextAt := None, lastAt := Some(w.clock)) && StageIs(w, v, t, Invited)
       else if i.exec == Ran(Success) then MovesOn(plan, c, v.cursors[t], w.clock, i.schedule) && StageStays(w, v, t)
       else v.cursors[t] == c.(state := ProgressState.Failed, nextAt := None) && StageStays(w, v, t)
  }

  /** A step with its way clear: drafted and parked, refused without a trace, or driven. */
  lemma ClearStepLeaves(plan: Plan, w: World, t: TargetId, kind: ActionType, i: StepInput)
    requires t in w.cursors && StandsOn(plan, w.cursors[t], kind) && WayIsClear(w, t, kind, i)
    ensures var r, c, now := DispatchStep(plan, w, t, i), w.cursors[t], w.(clock := i.now);
            if !GoesStraightOut(w, c.campaign, kind) then
              r == Result(now.(messages := w.messages + [Message.Message(t, c.account, kind, i.draft, Draft, i.now)],
                               cursors := w.cursors[t := c.(state := AwaitingApproval)],
                               log := w.log + [Drafted(t, c.step, kind, |w.messages|)]),
                          Held(AwaitsHuman))
            else if !MayAct(plan, w, c.account, kind, i.restAllows) || i.exec.MintRefused? then r == Result(now, Held(GateRefused))
            else DriveLeaves(plan, now, r, t, kind, i)
  {
    var now := At(w, i.now);
    var c := w.cursors[t];
    assert plan.Steps(c.campaign) == plan.steps[c.campaign];
    GuardsPassWhenClear(now, t, kind, i);
    assert WayIsClear(now, t, kind, i) <==> WayIsClear(w, t, kind, i);
    assert MayExecuteDirectly(LevelOf(now, c.campaign), kind) <==> GoesStraightOut(w, c.campaign, kind);
    if GoesStraightOut(w, c.campaign, kind) && MayAct(plan, w, c.account, kind, i.restAllows) && !i.exec.MintRefused? {
      DrivingLeaves(plan, now, t, kind, i);
    }
  }

  lemma DrivingLeaves(plan: Plan, w: World, t: TargetId, kind: ActionType, i: StepInput)
    requires t in w.cursors && MayExecuteDirectly(LevelOf(w, w.cursors[t].campaign), kind)
    requires GateOpen(plan, w, w.cursors[t].account, kind, i.restAllows) && !i.exec.MintRefused?
    ensures DriveLeaves(plan, w, Fire(plan, w, t, kind, i), t, kind, i)
  {
    var c := w.cursors[t];
    var via := Direct(LevelOf(w, c.campaign), c.step);
    DriveIsRowed(w, t, c.account, kind, i.exec, via);
    var ran := ExecEffect(w, t, c.account, kind, i.exec, via);
    if i.exec.Ran? && kind == ActionType.Connect {
      ParkingLeaves(ran, t, i.exec.result);
    } else if i.exec == Ran(Success) {
      AdvanceMovesOn(plan, c, w.clock, i.schedule);
    }
  }

  /** The drive itself writes its row and, for an invite that went out, the pile. */
  lemma DriveIsRowed(w: World, t: TargetId, a: AccountId, kind: ActionType, x: Exec, via: Via)
    ensures var v := ExecEffect(w, t, a, kind, x, via);
            && v == w.(log := v.log, outstanding := v.outstanding)
            && PileAfter(w, v, a, kind == ActionType.Connect && x == Ran(Success))
            && v.log == w.log + if RowOf(x).None? then [] else [Drove(w.clock, t, a, kind, RowOf(x).value, via)]
  {
    assert w.log + [] == w.log;
  }

  lemma ParkingLeaves(w: World, t: TargetId, result: ActionResult)
    requires t in w.cursors
    ensures var v, c := ParkAfterConnect(w, t, result).w, w.cursors[t];
            && OnlyLeadMoved(w, v, t) && v == w.(cursors := v.cursors, targets := v.targets)
            && match result
               case Success => v.cursors[t] == c.(state := AwaitingConnection, nextAt := None, lastAt := Some(w.clock)) && StageIs(w, v, t, Invited)
               case Skipped => v.cursors[t] == c.(state := AlreadyInvited, nextAt := None, lastAt := Some(w.clock)) && StageIs(w, v, t, Invited)
               case _ => v.cursors[t] == c.(state := ProgressState.Failed, nextAt := None) && StageStays(w, v, t)
  {
  }

  /** The other steps: no enabled step changes nothing, a finished sequence completes, a wait moves on. */
  lemma OtherStepsLeave(plan: Plan, w: World, t: TargetId, i: StepInput)
    requires t in w.cursors && w.cursors[t].state == InProgress
    ensures var r, c, now := DispatchStep(plan, w, t, i), w.cursors[t], w.(clock := i.now);
            var steps := if c.campaign in plan.steps then plan.steps[c.campaign] else [];
            && (|steps| == 0 ==> r == Result(now, NoSteps))
            && (0 < |steps| <= c.step ==>
                  r == Result(now.(cursors := w.cursors[t := c.(state := Completed, nextAt := None)]), Exhausted))
            && (c.step < |steps| && steps[c.step].kind == Delay ==>
                  && t in r.w.cursors && r.w == now.(cursors := w.cursors[t := r.w.cursors[t]])
                  && MovesOn(plan, c, r.w.cursors[t], i.now, i.schedule)
                  && r.outcome == if c.step + 1 < |steps| then Delayed else CompletedByDelay)
  {
    var c := w.cursors[t];
    var steps := plan.Steps(c.campaign);
    if c.step + 1 < |steps| {
      DueIsByDelay(i.now, steps[c.step + 1].delaySeconds, i.schedule);
    }
  }

  // ----- an approved row

  /** Its lead has left, or must not be contacted. */
  predicate MustNotGo(w: World, m: MessageId)
    requires m < |w.messages|
  {
    var t := w.messages[m].target;
    || Hushed(w, t)
    || (w.messages[m].kind == ActionType.Message
        && ((t in w.cursors && w.cursors[t].state == ProgressState.Replied) || t !in w.targets || w.targets[t].stage == Lost))
  }

  /** It has to wait: not due yet, or the inbox cannot be read. */
  predicate MustWait(w: World, m: MessageId, i: SendInput)
    requires m < |w.messages|
  {
    var t := w.messages[m].target;
    w.messages[m].kind == ActionType.Message && ((t in w.cursors && !DueAt(w.cursors[t], w.clock)) || i.probe.Broken?)
  }

  /** What a delivered row leaves: an invite parks its lead, anything else moves it on; a lead no
      longer parked for approval stays where it is. */
  ghost predicate DeliveryLeaves(plan: Plan, w: World, v: World, m: MessageId, s: Schedule)
    requires m < |w.messages|
  {
    var msg := w.messages[m];
    var t := msg.target;
    var parked := t in w.cursors && w.cursors[t].state == AwaitingApproval;
    && v.messages == w.messages[m := msg.(status := Sent)]
    && if msg.kind == ActionType.Connect then
         && StageIs(w, v, t, Invited)
         && (t in w.cursors && t in v.cursors ==>
               v.cursors[t] == if parked then w.cursors[t].(state := AwaitingConnection, nextAt := None, lastAt := Some(w.clock))
                               else w.cursors[t])
       else
         && StageStays(w, v, t)
         && (t in w.cursors && t in v.cursors ==> if parked then MovesOn(plan, w.cursors[t], v.cursors[t], w.clock, s)
                                                  else v.cursors[t] == w.cursors[t])
  }

  /** What a row with nothing left to send leaves. */
  ghost predicate NothingToSendLeaves(w: World, v: World, m: MessageId)
    requires m < |w.messages|
  {
    var msg := w.messages[m];
    var t := msg.target;
    && v.messages == w.messages[m := msg.(status := Cancelled)]
    && if msg.kind == ActionType.Connect && t in w.cursors then
         StageIs(w, v, t, Invited) && t in v.cursors && v.cursors[t] == w.cursors[t].(state := AlreadyInvited, nextAt := None, lastAt := Some(w.clock))
       else v.targets == w.targets && v.cursors == w.cursors
  }

  /** What an executed row leaves. */
  ghost predicate SendLeaves(plan: Plan, w: World, v: World, m: MessageId, i: SendInput)
    requires m < |w.messages|
  {
    var msg := w.messages[m];
    && OnlyLeadMoved(w, v, msg.target) && v.suppressed == w.suppressed && v.clock == w.clock
    && PileAfter(w, v, msg.account, msg.kind == ActionType.Connect && i.exec == Ran(Success))
    && v.log == w.log + (if RowOf(i.exec).None? then []
                         else [Drove(w.clock, msg.target, msg.account, msg.kind, RowOf(i.exec).value, ByApproval(m, msg.body))])
    && if i.exec == Ran(Success) then DeliveryLeaves(plan, w, v, m, i.schedule)
       else if i.exec == Ran(ActionResult.Skipped) then NothingToSendLeaves(w, v, m)
       else v.messages == w.messages && v.targets == w.targets && v.cursors == w.cursors
  }

  /** Why a row that must not go out is cancelled: the first reason that applies. */
  predicate CancelledFor(w: World, m: MessageId, why: CancelReason)
    requires m < |w.messages|
  {
    var t := w.messages[m].target;
    if w.messages[m].kind != ActionType.Message then why == PersonSuppressed
    else if t in w.cursors && w.cursors[t].state == ProgressState.Replied then why == PersonReplied
    else if t !in w.targets then why == TargetMissing
    else if w.targets[t].stage == Lost then why == StageLost
    else why == PersonSuppressed
  }

  /** What is reported of a row the executor was asked to send; a failure or a throw reports nothing. */
  predicate SendReported(w: World, m: MessageId, x: Exec, o: Option<SendOutcome>)
    requires m < |w.messages|
  {
    var t := w.messages[m].target;
    var invite := w.messages[m].kind == ActionType.Connect;
    if x == Ran(ActionResult.Skipped) then
      o == Some(if invite && t in w.cursors then InvitePending else SendCancelled(NothingThere))
    else if x == Ran(Success) then
      o == Some(if t !in w.cursors || w.cursors[t].state != AwaitingApproval then Delivered(-1)
                else if invite then InviteParked else Delivered(w.cursors[t].step + 1))
    else o == None
  }

  /** An approved row by the tick, and what it reports: it waits while the account may not act; after
      five failures it is given up, unless the lane is down; it is cancelled where its lead must not
      be contacted, waits where it must, yields to a reply, and is executed otherwise. */
  ghost predicate RowLeaves(plan: Plan, w: World, v: World, o: Option<SendOutcome>, m: MessageId, i: SendInput)
    requires m < |w.messages|
  {
    var msg := w.messages[m];
    var t := msg.target;
    if !MayAct(plan, w, msg.account, msg.kind, i.restAllows) then v == w && o == None
    else if |Failures(w.log, t, msg.kind, msg.createdAt)| >= 5 then
      if LaneDown(w.log, msg.account, msg.kind, w.clock) then v == w && o == None
      else
        && v == w.(messages := w.messages[m := msg.(status := Cancelled)],
                   cursors := if t in w.cursors then w.cursors[t := w.cursors[t].(state := ProgressState.Failed, nextAt := None)] else w.cursors,
                   log := w.log + [Abandoned(w.clock, m, t, msg.account, msg.kind)])
        && o == Some(SendCancelled(AttemptsExhausted))
    else if MustNotGo(w, m) then
      && TakenOut(w.(messages := w.messages[m := msg.(status := Cancelled)]), v, t, ProgressState.Replied) && StageStays(w, v, t)
      && o.Some? && o.value.SendCancelled? && CancelledFor(w, m, o.value.reason)
    else if MustWait(w, m, i) then v == w && o == None
    else if msg.kind == ActionType.Message && i.probe.Answered? then
      && o == Some(SendHeld)
      && if i.probe.route.Some? then LeavesByReply(w, v, t, i.probe.route.value) else v == w
    else if i.exec.MintRefused? then v == w && o == None
    else SendLeaves(plan, w, v, m, i) && SendReported(w, m, i.exec, o)
  }

  lemma ApprovedRowLeaves(plan: Plan, w: World, m: MessageId, i: SendInput)
    requires m < |w.messages|
    ensures RowLeaves(plan, w.(clock := i.now), SendApproved(plan, w, m, i), SendReport(plan, w, m, i), m, i)
  {
    var now := At(w, i.now);
    var msg := now.messages[m];
    CountIsFailures(now.log, msg.target, msg.kind, msg.createdAt);
    LaneDownIff(now.log, msg.account, msg.kind, now.clock);
    if GateOpen(plan, now, msg.account, msg.kind, i.restAllows)
       && CountFailed(now.log, msg.target, msg.kind, msg.createdAt) < MAX_SEND_ATTEMPTS {
      GuardedRowLeaves(now, m, i);
      GuardedRowReports(now, m, i);
      if SendGuard(now, m, i).None? && !i.exec.MintRefused? {
        ExecutedRowLeaves(plan, now, m, i);
      }
    }
  }

  lemma GuardedRowReports(w: World, m: MessageId, i: SendInput)
    requires m < |w.messages|
    ensures var o := GuardReport(w, m, i);
            if MustNotGo(w, m) then o.Some? && o.value.SendCancelled? && CancelledFor(w, m, o.value.reason)
            else if MustWait(w, m, i) then SendGuard(w, m, i).Some? ==> o == None
            else if w.messages[m].kind == ActionType.Message && i.probe.Answered? then o == Some(SendHeld)
            else SendReported(w, m, i.exec, DriveReport(w, m, i))
  {
  }

  lemma GuardedRowLeaves(w: World, m: MessageId, i: SendInput)
    requires m < |w.messages|
    ensures var g, t := SendGuard(w, m, i), w.messages[m].target;
            if MustNotGo(w, m) then
              g.Some? && TakenOut(w.(messages := w.messages[m := w.messages[m].(status := Cancelled)]), g.value, t, ProgressState.Replied)
              && StageStays(w, g.value, t)
            else if MustWait(w, m, i) then g == Some(w)
            else if w.messages[m].kind == ActionType.Message && i.probe.Answered? then
              g.Some? && if i.probe.route.Some? then LeavesByReply(w, g.value, t, i.probe.route.value) else g.value == w
            else g == None
  {
    StoppingTakesOut(SetStatus(w, m, Cancelled), w.messages[m].target, ProgressState.Replied);
    if i.probe.Answered? && i.probe.route.Some? {
      RoutingLeaves(w, w.messages[m].target, i.probe.route.value);
    }
  }

  lemma ExecutedRowLeaves(plan: Plan, w: World, m: MessageId, i: SendInput)
    requires m < |w.messages| && !i.exec.MintRefused?
    ensures SendLeaves(plan, w, SendResult(plan, w, m, i), m, i)
  {
    var msg := w.messages[m];
    DriveIsRowed(w, msg.target, msg.account, msg.kind, i.exec, ByApproval(m, msg.body));
    if i.exec == Ran(Success) {
      DeliveredRowLeaves(plan, w, m, i);
    } else if i.exec == Ran(ActionResult.Skipped) {
      UnsendableRowLeaves(plan, w, m, i);
    }
  }

  /** Row, stage and cursor move; the rest is what the drive wrote. */
  ghost predicate KeepsTheRest(ran: World, v: World, t: TargetId) {
    v == ran.(messages := v.messages, targets := v.targets, cursors := v.cursors) && OnlyLeadMoved(ran, v, t)
  }

  lemma DeliveredRowLeaves(plan: Plan, w: World, m: MessageId, i: SendInput)
    requires m < |w.messages| && i.exec == Ran(Success)
    ensures var v, msg := SendResult(plan, w, m, i), w.messages[m];
            && DeliveryLeaves(plan, w, v, m, i.schedule)
            && KeepsTheRest(ExecEffect(w, msg.target, msg.account, msg.kind, i.exec, ByApproval(m, msg.body)), v, msg.target)
  {
    if w.messages[m].kind == ActionType.Connect {
      DeliveredInviteLeaves(plan, w, m, i);
    } else {
      DeliveredStepLeaves(plan, w, m, i);
    }
  }

  lemma DeliveredInviteLeaves(plan: Plan, w: World, m: MessageId, i: SendInput)
    requires m < |w.messages| && i.exec == Ran(Success) && w.messages[m].kind == ActionType.Connect
    ensures var v, msg := SendResult(plan, w, m, i), w.messages[m];
            && DeliveryLeaves(plan, w, v, m, i.schedule)
            && KeepsTheRest(ExecEffect(w, msg.target, msg.account, msg.kind, i.exec, ByApproval(m, msg.body)), v, msg.target)
  {
  }

  lemma DeliveredStepLeaves(plan: Plan, w: World, m: MessageId, i: SendInput)
    requires m < |w.messages| && i.exec == Ran(Success) && w.messages[m].kind != ActionType.Connect
    ensures var v, msg := SendResult(plan, w, m, i), w.messages[m];
            && DeliveryLeaves(plan, w, v, m, i.schedule)
            && KeepsTheRest(ExecEffect(w, msg.target, msg.account, msg.kind, i.exec, ByApproval(m, msg.body)), v, msg.target)
  {
    if w.messages[m].target in w.cursors {
      AdvanceMovesOn(plan, w.cursors[w.messages[m].target], w.clock, i.schedule);
    }
  }

  lemma UnsendableRowLeaves(plan: Plan, w: World, m: MessageId, i: SendInput)
    requires m < |w.messages| && i.exec == Ran(ActionResult.Skipped)
    ensures var v, msg := SendResult(plan, w, m, i), w.messages[m];
            && NothingToSendLeaves(w, v, m)
            && KeepsTheRest(ExecEffect(w, msg.target, msg.account, msg.kind, i.exec, ByApproval(m, msg.body)), v, msg.target)
  {
  }

  // ----- the other writers

  /** One less in the pile, and never less than none. */
  predicate PileDrops(w: World, v: World, a: AccountId) {
    v.outstanding == w.outstanding[a := if a in w.outstanding && w.outstanding[a] > 0 then w.outstanding[a] - 1 else 0]
  }

  /** An invite no longer out: the lead lost, its cursor ended, the pile one smaller. */
  ghost predicate InviteGone(w: World, v: World, t: TargetId, end: ProgressState)
    requires t in w.cursors
  {
    && OnlyLeadMoved(w, v, t) && v.messages == w.messages && v.suppressed == w.suppressed
    && v.cursors[t] == w.cursors[t].(state := end, nextAt := None) && StageIs(w, v, t, Lost) && PileDrops(w, v, w.cursors[t].account)
  }

  lemma AcceptanceLeaves(plan: Plan, w: World, t: TargetId, now: int, s: Schedule)
    requires t in w.cursors && t in w.targets
    ensures var v := AcceptInvite(plan, w, t, now, s);
            && OnlyLeadMoved(w, v, t) && v.messages == w.messages && v.suppressed == w.suppressed && v.clock == now
            && MovesOn(plan, w.cursors[t], v.cursors[t], now, s) && StageIs(w, v, t, Connected)
            && PileDrops(w, v, w.cursors[t].account) && v.log == w.log + [Accepted(t)]
  {
    AdvanceMovesOn(plan, w.cursors[t], now, s);
  }

  lemma SweepLeaves(w: World, t: TargetId)
    requires t in w.cursors
    ensures var v := ReleaseParked(w, t, ProgressState.Skipped);
            InviteGone(w, v, t, ProgressState.Skipped) && v.log == w.log && v.clock == w.clock
  {
  }

  /** A withdrawal asked for directly: nothing without a permitting level, an open gate and a minted
      drive; otherwise its row, and the lead released if it was parked and the withdrawal landed. */
  lemma WithdrawalLeaves(plan: Plan, w: World, t: TargetId, restAllows: bool, x: Exec)
    requires t in w.cursors
    ensures var v, c := WithdrawInviteNow(plan, w, t, restAllows, x), w.cursors[t];
            if RunsAt(w, c.campaign, Supervised) || !restAllows || x.MintRefused? then v == w
            else
              && (forall level :: RunsAt(w, c.campaign, level) ==>
                    v.log == w.log + if RowOf(x).None? then []
                                     else [Drove(w.clock, t, c.account, ActionType.WithdrawInvite, RowOf(x).value, Operator(level))])
              && if x == Ran(Success) && c.state == AwaitingConnection then InviteGone(w, v, t, Withdrawn)
                 else v == w.(log := v.log)
  {
    assert w.log + [] == w.log;
  }

  /** A decision counts once, on a draft: it approves with the given body, or rejects; only a rejection
      that resolves stops the parked cursor. */
  lemma DecisionLeaves(w: World, m: MessageId, d: ApprovalDecision, newBody: Body, resume: bool)
    requires m < |w.messages|
    ensures var v, msg := DecideDraft(w, m, d, newBody, resume), w.messages[m];
            var body := if d == Edit then newBody else msg.body;
            if msg.status != Draft then v == w
            else
              v == w.(messages := w.messages[m := msg.(body := body, status := if d == Reject then Rejected else Approved)],
                      log := w.log + [Decided(m, d, body)],
                      cursors := if d == Reject && resume && msg.target in w.cursors && w.cursors[msg.target].state == AwaitingApproval
                                 then w.cursors[msg.target := w.cursors[msg.target].(state := ProgressState.Skipped, nextAt := None)]
                                 else w.cursors)
  {
  }

  /** A removal: out of the funnel, marked, lost exactly where the lead had been contacted. */
  lemma RemovalLeaves(w: World, t: TargetId)
    requires t in w.targets
    ensures var v, lead := RemoveTarget(w, t), w.targets[t];
            && OnlyLeadMoved(w, v, t) && RowsAfter(w, v, t) && v.log == w.log + [Removed(t)]
            && v.suppressed == w.suppressed && v.outstanding == w.outstanding
            && v.targets[t] == lead.(removed := true,
                                     stage := if lead.stage in {Invited, Connected, InConversation, Stage.Replied, Won} then Lost else lead.stage)
            && (t in w.cursors ==>
                  v.cursors[t] == if w.cursors[t].state in {NotStarted, InProgress, AwaitingApproval, AwaitingConnection}
                                  then w.cursors[t].(state := ProgressState.Skipped, nextAt := None) else w.cursors[t])
  {
    StoppingTakesOut(w, t, ProgressState.Skipped);
  }

  /** An enrollment: a fresh cursor, exactly where there is none and nothing speaks against it. */
  lemma EnrollmentLeaves(w: World, t: TargetId, a: AccountId, startAt: Option<int>, listing: seq<TargetId>)
    ensures var v := EnrollTarget(w, t, a, startAt, listing);
            if t in w.targets && !w.targets[t].removed && t !in w.cursors
               && (forall u :: u in listing ==> !ContactedElsewhere(w, t, w.targets[t].campaign, u))
            then v == w.(cursors := w.cursors[t := Cursor(w.targets[t].campaign, a, InProgress, 0, startAt, None)])
            else v == w
  {
    if t in w.targets {
      NoBlockerIff(w, t, w.targets[t].campaign, listing);
    }
  }

  /** A restart rebuilds the piles of all known accounts from the parked cursors, and nothing else. */
  lemma RestartLeaves(w: World, a: AccountId)
    ensures var v := RestartProcess(w);
            && v == w.(outstanding := v.outstanding)
            && (a in v.outstanding <==> a in w.outstanding || exists t :: t in w.cursors && w.cursors[t].account == a)
            && (a in v.outstanding ==>
                  v.outstanding[a] == |set t | t in w.cursors && w.cursors[t].state == AwaitingConnection && w.cursors[t].account == a|)
  {
    assert ParkedOf(w, a) == set t | t in w.cursors && w.cursors[t].state == AwaitingConnection && w.cursors[t].account == a;
  }
}
