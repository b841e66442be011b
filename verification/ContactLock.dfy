/** The cross-campaign contact lock: at most one campaign's row of a person is in a
contacted stage.

Dispatch steps consult the lock; approved sends and reply routing do not. So the
exclusion is kept by every run whose unguarded stage writes meet an unblocked lead,
and each of those writes keeps it exactly then. */
module ContactLock {
  import opened Wrappers
  import opened Actions
  import opened WorkingSchedule
  import opened FunnelWorld
  import opened FunnelLaws
  import opened FunnelRuns
  import opened FunnelTheorems

  predicate Rivals(w: World, t: TargetId, u: TargetId) {
    && t in w.targets && u in w.targets
    && w.targets[t].person == w.targets[u].person && w.targets[t].campaign != w.targets[u].campaign
  }

  predicate BothContacted(w: World, t: TargetId, u: TargetId)
    requires Rivals(w, t, u)
  {
    Contacted(w.targets[t].stage) && Contacted(w.targets[u].stage)
  }

  /** No person is in a contacted stage under two campaigns. */
  ghost predicate Exclusive(w: World) {
    forall t, u :: Rivals(w, t, u) ==> !BothContacted(w, t, u)
  }

  /** No other campaign contacts the person behind t. */
  ghost predicate Unblocked(w: World, t: TargetId) {
    forall u :: Rivals(w, t, u) ==> !Contacted(w.targets[u].stage)
  }

  /** Only t's row may have changed, and of it only stage and removal. */
  ghost predicate OnlyStageOf(w: World, v: World, t: TargetId) {
    && v.targets.Keys == w.targets.Keys
    && (forall u :: u in w.targets && u != t ==> v.targets[u] == w.targets[u])
    && (t in w.targets ==> v.targets[t].person == w.targets[t].person && v.targets[t].campaign == w.targets[t].campaign)
  }

  predicate Rises(w: World, v: World, t: TargetId) {
    t in w.targets && t in v.targets && Contacted(v.targets[t].stage) && !Contacted(w.targets[t].stage)
  }

  /** A lead newly contacted keeps the exclusion exactly when nobody else contacts the person. */
  lemma RiseKeepsIff(w: World, v: World, t: TargetId)
    requires Exclusive(w) && OnlyStageOf(w, v, t)
    ensures !Rises(w, v, t) ==> Exclusive(v)
    ensures t in w.targets && Contacted(v.targets[t].stage) ==> (Exclusive(v) <==> Unblocked(w, t))
  {
    assert forall x, y :: Rivals(v, x, y) <==> Rivals(w, x, y);
    forall x, y | Rivals(v, x, y) && (!Rises(w, v, t) || Unblocked(w, t)) ensures !BothContacted(v, x, y) {
      assert Rivals(w, x, y) && Rivals(w, y, x);
      assert !BothContacted(w, x, y);
    }
    if t in w.targets && Contacted(v.targets[t].stage) && !Unblocked(w, t) {
      var u :| Rivals(w, t, u) && Contacted(w.targets[u].stage);
      assert Rivals(v, t, u) && BothContacted(v, t, u);
    }
  }

  /** The lock looks at every row of the person, so passing it means unblocked. */
  lemma PassingMeansUnblocked(w: World, t: TargetId, i: StepInput)
    requires t in w.cursors && t in w.targets && w.cursors[t].campaign == w.targets[t].campaign
    requires ListsEverybody(w, t, i.listing) && LockGuard(w, t, i).None?
    ensures Unblocked(w, t)
  {
    forall u | Rivals(w, t, u) ensures !Contacted(w.targets[u].stage) {
      assert u in i.listing;
      assert !Blocks(w, w.targets[t].campaign, w.targets[t].person, u);
    }
  }

  // ----- the writes that do not consult the lock

  predicate RouteSafe(intent: Intent) {
    StageFor(intent) == Lost
  }

  /** The approved invite gets through to the executor and an invitation is, or already was, out. */
  predicate InviteGoesOut(plan: Plan, w0: World, m: MessageId, i: SendInput) {
    var w := At(w0, i.now);
    && m < |w.messages| && w.messages[m].kind == ActionType.Connect
    && GateOpen(plan, w, w.messages[m].account, ActionType.Connect, i.restAllows)
    && CountFailed(w.log, w.messages[m].target, ActionType.Connect, w.messages[m].createdAt) < MAX_SEND_ATTEMPTS
    && SendGuard(w, m, i).None?
    && (i.exec == Ran(Success) || i.exec == Ran(ActionResult.Skipped))
  }

  /** What must hold beforehand of the only two writes that skip the lock. */
  ghost predicate LockSafe(plan: Plan, w: World, e: Event) {
    match e
    case SendTried(m, i) => InviteGoesOut(plan, w, m, i) ==> Unblocked(w, w.messages[m].target)
    case ReplyRouted(t, intent) => RouteSafe(intent) || Unblocked(w, t)
    case _ => true
  }

  /** A contacted lead of an exclusive world has no contacted rival. */
  lemma ContactedIsUnblocked(w: World, t: TargetId)
    requires Exclusive(w) && t in w.targets && Contacted(w.targets[t].stage)
    ensures Unblocked(w, t)
  {
    forall u | Rivals(w, t, u) ensures !Contacted(w.targets[u].stage) {
      assert !BothContacted(w, t, u);
    }
  }

  /** Routing a reply keeps the exclusion exactly when it ends the lead or nobody else contacts the person. */
  lemma RoutingKeepsIff(w: World, t: TargetId, intent: Intent)
    requires Exclusive(w) && t in w.targets
    ensures Exclusive(RouteReply(w, t, intent)) <==> RouteSafe(intent) || Unblocked(w, t)
  {
    RiseKeepsIff(w, RouteReply(w, t, intent), t);
  }

  /** The probes are asked about connected leads only, so what they route keeps the exclusion. */
  lemma ProbeKeeps(w: World, t: TargetId, p: Probe)
    requires Exclusive(w) && t in w.targets && w.targets[t].stage == Connected
    ensures Exclusive(ProbeEffect(w, t, p))
  {
    ContactedIsUnblocked(w, t);
    if p.Answered? && p.route.Some? {
      RoutingKeepsIff(w, t, p.route.value);
    }
  }

  /** An approved invite that goes out keeps the exclusion exactly when nobody else contacts the person. */
  lemma ApprovedInviteKeepsIff(plan: Plan, w: World, m: MessageId, i: SendInput)
    requires Exclusive(w) && InviteGoesOut(plan, w, m, i)
    requires w.messages[m].target in w.targets && w.messages[m].target in w.cursors
    ensures Exclusive(SendApproved(plan, w, m, i)) <==> Unblocked(w, w.messages[m].target)
  {
    GoingOutMeansInvited(plan, w, m, i);
    RiseKeepsIff(w, SendApproved(plan, w, m, i), w.messages[m].target);
  }

  lemma GoingOutMeansInvited(plan: Plan, w: World, m: MessageId, i: SendInput)
    requires InviteGoesOut(plan, w, m, i)
    requires w.messages[m].target in w.targets && w.messages[m].target in w.cursors
    ensures var t := w.messages[m].target;
            var v := SendApproved(plan, w, m, i);
            OnlyStageOf(w, v, t) && v.targets[t].stage == Invited
  {
    var now := At(w, i.now);
    assert SendApproved(plan, w, m, i) == SendResult(plan, now, m, i);
    ResultInvites(plan, now, m, i);
  }

  lemma ResultInvites(plan: Plan, w: World, m: MessageId, i: SendInput)
    requires m < |w.messages| && w.messages[m].kind == ActionType.Connect
    requires i.exec == Ran(Success) || i.exec == Ran(ActionResult.Skipped)
    requires w.messages[m].target in w.targets && w.messages[m].target in w.cursors
    ensures SendResult(plan, w, m, i).targets == SetStage(w, w.messages[m].target, Invited).targets
  {
  }

  // ----- every event

  lemma GuardExclusive(w: World, t: TargetId, kind: ActionType, i: StepInput)
    requires Exclusive(w) && t in w.cursors && Guard(w, t, kind, i).Some?
    ensures Exclusive(Guard(w, t, kind, i).value.w)
  {
    var v := Guard(w, t, kind, i).value.w;
    GuardProbesConnected(w, t, kind, i);
    if t in w.targets && w.targets[t].stage == Connected && v == ProbeEffect(w, t, i.probe) {
      ProbeKeeps(w, t, i.probe);
    } else {
      RiseKeepsIff(w, v, t);
    }
  }

  /** A guard stops the lead, holds it, or routes what the probe found of a connected one. */
  lemma GuardProbesConnected(w: World, t: TargetId, kind: ActionType, i: StepInput)
    requires t in w.cursors && Guard(w, t, kind, i).Some?
    ensures var v := Guard(w, t, kind, i).value.w;
            || v == w || v == StopFunnel(w, t, ProgressState.Replied)
            || v == SetStage(StopFunnel(w, t, ProgressState.Skipped), t, Lost)
            || (v == ProbeEffect(w, t, i.probe) && t in w.targets && w.targets[t].stage == Connected)
  {
  }

  lemma FireRises(plan: Plan, w: World, t: TargetId, kind: ActionType, i: StepInput)
    requires t in w.cursors
    ensures var v := Fire(plan, w, t, kind, i).w;
            OnlyStageOf(w, v, t) && (Rises(w, v, t) ==> kind == ActionType.Connect)
  {
  }

  lemma StepExclusive(plan: Plan, w0: World, t: TargetId, i: StepInput)
    requires Exclusive(w0) && WellFormed(w0) && t in w0.cursors && ListsEverybody(w0, t, i.listing)
    ensures Exclusive(DispatchStep(plan, w0, t, i).w)
  {
    var w := At(w0, i.now);
    RiseKeepsIff(w0, w, t);
    assert forall u :: Rivals(w, t, u) <==> Rivals(w0, t, u);
    var steps := plan.Steps(w.cursors[t].campaign);
    var v := DispatchStep(plan, w0, t, i).w;
    if w.cursors[t].step < |steps| && steps[w.cursors[t].step].kind != Delay {
      var kind := steps[w.cursors[t].step].kind.action;
      if Guard(w, t, kind, i).Some? {
        GuardExclusive(w, t, kind, i);
      } else {
        FireRises(plan, w, t, kind, i);
        if kind == ActionType.Connect {
          PassingMeansUnblocked(w, t, i);
        }
        RiseKeepsIff(w, v, t);
      }
    } else {
      RiseKeepsIff(w, v, t);
    }
  }

  /** A send that is no invite going out raises nobody. */
  lemma ResultRisesByInvite(plan: Plan, w: World, m: MessageId, i: SendInput)
    requires m < |w.messages|
    requires !(w.messages[m].kind == ActionType.Connect && (i.exec == Ran(Success) || i.exec == Ran(ActionResult.Skipped)))
    ensures SendResult(plan, w, m, i).targets == w.targets
  {
  }

  lemma SendGuardExclusive(w: World, m: MessageId, i: SendInput)
    requires Exclusive(w) && m < |w.messages| && SendGuard(w, m, i).Some?
    requires w.messages[m].kind == ActionType.Message ==>
               w.messages[m].target in w.targets && w.targets[w.messages[m].target].stage == Connected
    ensures Exclusive(SendGuard(w, m, i).value)
  {
    var t := w.messages[m].target;
    var v := SendGuard(w, m, i).value;
    SendGuardShape(w, m, i);
    if w.messages[m].kind == ActionType.Message && v == ProbeEffect(w, t, i.probe) {
      ProbeKeeps(w, t, i.probe);
    } else {
      RiseKeepsIff(w, v, t);
    }
  }

  lemma SendExclusiveIff(plan: Plan, warm: set<TargetId>, w0: World, m: MessageId, i: SendInput)
    requires Inv(plan, warm, w0) && Exclusive(w0) && m < |w0.messages| && w0.messages[m].status == Approved
    ensures Exclusive(SendApproved(plan, w0, m, i)) <==> LockSafe(plan, w0, SendTried(m, i))
  {
    assert LiveIsParked(plan, w0, m);
    var w := At(w0, i.now);
    var v := SendApproved(plan, w0, m, i);
    RiseKeepsIff(w0, w, w.messages[m].target);
    if InviteGoesOut(plan, w0, m, i) {
      ApprovedInviteKeepsIff(plan, w0, m, i);
    } else {
      OtherSendExclusive(plan, w, m, i);
      assert At(w, i.now) == w;
    }
  }

  lemma OtherSendExclusive(plan: Plan, w: World, m: MessageId, i: SendInput)
    requires Exclusive(w) && m < |w.messages| && w.clock == i.now && !InviteGoesOut(plan, w, m, i)
    requires w.messages[m].kind == ActionType.Message ==>
               w.messages[m].target in w.targets && w.targets[w.messages[m].target].stage == Connected
    ensures Exclusive(SendApproved(plan, w, m, i))
  {
    var msg := w.messages[m];
    var v := SendApproved(plan, w, m, i);
    assert At(w, i.now) == w;
    if v.targets == w.targets {
      RiseKeepsIff(w, v, msg.target);
    } else if SendGuard(w, m, i).Some? {
      SendGuardExclusive(w, m, i);
    } else {
      ResultRisesByInvite(plan, w, m, i);
    }
  }

  /** A writer that never raises a stage, and the lead it is about, if any. */
  predicate OtherAbout(e: Event, t: TargetId) {
    match e
    case InviteAccepted(u, _, _) => u == t
    case InviteSwept(u) => u == t
    case InviteWithdrawn(u, _, _) => u == t
    case LeadRemoved(u) => u == t
    case DraftDecided(_, _, _, _) | LeadEnrolled(_, _, _, _) | AutonomySet(_, _) | Restarted => true
    case Stepped(_, _) | SendTried(_, _) | ReplyRouted(_, _) => false
  }

  /** The other writers raise nobody who was not contacted already. */
  lemma OthersRiseNowhere(plan: Plan, w: World, e: Event, t: TargetId)
    requires ParkedIsInvited(w) && Enabled(plan, w, e)
    requires OtherAbout(e, t)
    ensures OnlyStageOf(w, Apply(plan, w, e), t) && !Rises(w, Apply(plan, w, e), t)
  {
    match e
    case InviteAccepted(u, now, schedule) =>
      assert w.targets[t].stage == Invited;
    case InviteWithdrawn(u, restAllows, x) => WithdrawnRisesNowhere(plan, w, u, restAllows, x);
    case LeadRemoved(u) => RemovedRisesNowhere(w, u);
    case _ =>
  }

  lemma WithdrawnRisesNowhere(plan: Plan, w: World, t: TargetId, restAllows: bool, x: Exec)
    requires t in w.cursors
    ensures var v := WithdrawInviteNow(plan, w, t, restAllows, x); OnlyStageOf(w, v, t) && !Rises(w, v, t)
  {
  }

  lemma RemovedRisesNowhere(w: World, t: TargetId)
    ensures OnlyStageOf(w, RemoveTarget(w, t), t) && !Rises(w, RemoveTarget(w, t), t)
  {
  }

  /** An event keeps one campaign per person exactly when it is safe: steps, acceptances,
      withdrawals, removals, decisions and approved messages always are. */
  lemma EventExclusiveIff(plan: Plan, warm: set<TargetId>, w: World, e: Event, v: World)
    requires Inv(plan, warm, w) && Enabled(plan, w, e) && Exclusive(w) && v == Apply(plan, w, e)
    ensures Exclusive(v) <==> LockSafe(plan, w, e)
  {
    match e
    case Stepped(t, i) => StepExclusive(plan, w, t, i);
    case SendTried(m, i) => SendExclusiveIff(plan, warm, w, m, i);
    case ReplyRouted(t, intent) => RoutingKeepsIff(w, t, intent);
    case InviteAccepted(t, _, _) => OtherExclusive(plan, w, e, v, t);
    case InviteSwept(t) => OtherExclusive(plan, w, e, v, t);
    case InviteWithdrawn(t, _, _) => OtherExclusive(plan, w, e, v, t);
    case LeadRemoved(t) => OtherExclusive(plan, w, e, v, t);
    case _ => OtherExclusive(plan, w, e, v, 0);
  }

  lemma OtherExclusive(plan: Plan, w: World, e: Event, v: World, t: TargetId)
    requires ParkedIsInvited(w) && Enabled(plan, w, e) && Exclusive(w) && v == Apply(plan, w, e)
    requires OtherAbout(e, t)
    ensures Exclusive(v)
  {
    OthersRiseNowhere(plan, w, e, t);
    RiseKeepsIff(w, v, t);
  }

  /** Over every run whose unguarded writes are safe, one campaign at a time contacts a person. */
  lemma {:induction false} OneCampaignPerPerson(plan: Plan, warm: set<TargetId>, worlds: seq<World>, events: seq<Event>, n: nat)
    requires History(plan, warm, worlds, events) && n < |worlds| && Exclusive(worlds[0])
    requires forall k :: 0 <= k < n ==> LockSafe(plan, worlds[k], events[k])
    ensures Exclusive(worlds[n])
  {
    if n > 0 {
      OneCampaignPerPerson(plan, warm, worlds, events, n - 1);
      HistoryKept(plan, warm, worlds, events, n - 1, n - 1);
      EventExclusiveIff(plan, warm, worlds[n - 1], events[n - 1], worlds[n]);
    }
  }

  /** The events a run may hold without any question asked. */
  predicate Guarded(e: Event) {
    !e.ReplyRouted? && !e.SendTried?
  }

  /** Runs of dispatch steps, probes answering what they like, acceptances, withdrawals,
      decisions, enrollments and removals need no hypothesis at all. */
  lemma GuardedRunsAreExclusive(plan: Plan, warm: set<TargetId>, worlds: seq<World>, events: seq<Event>, n: nat)
    requires History(plan, warm, worlds, events) && n < |worlds| && Exclusive(worlds[0])
    requires forall k :: 0 <= k < n ==> Guarded(events[k])
    ensures Exclusive(worlds[n])
  {
    forall k | 0 <= k < n ensures LockSafe(plan, worlds[k], events[k]) {
      assert Guarded(events[k]);
    }
    OneCampaignPerPerson(plan, warm, worlds, events, n);
  }

  // ----- and a run that breaks it

  const INVITE := StepDef(Act(ActionType.Connect), 0)
  const TWO_CAMPAIGNS := Plan(map[0 := [INVITE], 1 := [INVITE]], 10)
  const ANY_DAY := Schedule(0, 24, {})
  const TICK := StepInput(0, true, NoProbe, Ran(Success), ANY_DAY, 0, [0, 1])
  const SEND := SendInput(0, true, NoProbe, Ran(Success), ANY_DAY)

  /** One person sourced by two supervised campaigns, each about to invite. */
  function SourcedTwice(): World {
    World(0, map[0 := Supervised, 1 := Supervised],
          map[0 := Target(0, 7, Sourced, false), 1 := Target(1, 7, Sourced, false)],
          map[0 := Cursor(0, 0, InProgress, 0, None, None), 1 := Cursor(1, 1, InProgress, 0, None, None)],
          [], {}, map[], [])
  }

  const BOTH_APPROVED := [
    Stepped(0, TICK), Stepped(1, TICK), DraftDecided(0, Approve, 0, true), DraftDecided(1, Approve, 0, true),
    SendTried(0, SEND), SendTried(1, SEND)]

  lemma SupervisedInviteIsQueued(w: World, t: TargetId)
    requires w.clock == 0 && t in w.cursors && t < 2 && w.cursors[t] == Cursor(t, t, InProgress, 0, None, None)
    requires LevelOf(w, t) == Supervised && w.suppressed == {}
    requires forall u :: u in w.targets ==> !Contacted(w.targets[u].stage)
    ensures DispatchStep(TWO_CAMPAIGNS, w, t, TICK).w == QueueDraft(w, t, ActionType.Connect, 0)
  {
    assert At(w, 0) == w;
    assert TWO_CAMPAIGNS.Steps(t) == [INVITE];
    assert LockGuard(w, t, TICK).None?;
  }

  lemma ApprovedInviteLands(w: World, m: MessageId)
    requires w.clock == 0 && m < |w.messages| && w.messages[m].status == Approved && w.messages[m].kind == ActionType.Connect
    requires w.suppressed == {} && OutstandingOf(w, w.messages[m].account) < 10
    requires CountFailed(w.log, w.messages[m].target, ActionType.Connect, w.messages[m].createdAt) == 0
    requires w.messages[m].target in w.targets
    ensures var v := SendApproved(TWO_CAMPAIGNS, w, m, SEND);
            && v.targets == w.targets[w.messages[m].target := w.targets[w.messages[m].target].(stage := Invited)]
            && v.messages == w.messages[m := w.messages[m].(status := Sent)]
            && v.clock == 0 && v.suppressed == {}
            && v.outstanding == AddOutstanding(w, w.messages[m].account).outstanding
            && v.log == w.log + [Drove(0, w.messages[m].target, w.messages[m].account, ActionType.Connect, Success, ByApproval(m, w.messages[m].body))]
  {
    assert At(w, 0) == w;
  }

  lemma {:induction false} NoFailuresYet(log: seq<Entry>, t: TargetId)
    requires forall k :: 0 <= k < |log| && log[k].Drove? ==> log[k].result == Success
    ensures CountFailed(log, t, ActionType.Connect, 0) == 0
  {
    if log != [] {
      NoFailuresYet(log[..|log| - 1], t);
    }
  }

  ghost predicate Next(w: World, k: nat, v: World)
    requires k < 6
  {
    Enabled(TWO_CAMPAIGNS, w, BOTH_APPROVED[k]) && v == Apply(TWO_CAMPAIGNS, w, BOTH_APPROVED[k])
  }

  /** Both rows approved, nothing driven yet. */
  ghost predicate Ripe(w: World) {
    && |w.messages| == 2 && w.clock == 0 && w.suppressed == {} && w.outstanding == map[]
    && w.targets == SourcedTwice().targets
    && w.messages[0] == Message.Message(0, 0, ActionType.Connect, 0, Approved, 0)
    && w.messages[1] == Message.Message(1, 1, ActionType.Connect, 0, Approved, 0)
    && forall k :: 0 <= k < |w.log| ==> !w.log[k].Drove?
  }

  /** A run of the first events. */
  ghost predicate Chain(worlds: seq<World>) {
    1 <= |worlds| <= 7 && forall k :: 0 <= k < |worlds| - 1 ==> Next(worlds[k], k, worlds[k + 1])
  }

  lemma Longer(worlds: seq<World>, v: World)
    requires Chain(worlds) && |worlds| < 7 && Next(worlds[|worlds| - 1], |worlds| - 1, v)
    ensures Chain(worlds + [v])
  {
    var more := worlds + [v];
    forall k | 0 <= k < |more| - 1 ensures Next(more[k], k, more[k + 1]) {
      if k < |worlds| - 1 {
        assert Next(worlds[k], k, worlds[k + 1]);
      }
    }
  }

  lemma QueuedTwice() returns (worlds: seq<World>)
    ensures Chain(worlds) && |worlds| == 3 && worlds[0] == SourcedTwice()
    ensures worlds[2] == QueueDraft(QueueDraft(SourcedTwice(), 0, ActionType.Connect, 0), 1, ActionType.Connect, 0)
  {
    var w0 := SourcedTwice();
    var w1 := QueueDraft(w0, 0, ActionType.Connect, 0);
    SupervisedInviteIsQueued(w0, 0);
    Longer([w0], w1);
    SupervisedInviteIsQueued(w1, 1);
    Longer([w0] + [w1], QueueDraft(w1, 1, ActionType.Connect, 0));
    worlds := [w0] + [w1] + [QueueDraft(w1, 1, ActionType.Connect, 0)];
  }

  lemma ApprovedTwice(worlds: seq<World>) returns (more: seq<World>)
    requires Chain(worlds) && |worlds| == 3
    requires worlds[2] == QueueDraft(QueueDraft(SourcedTwice(), 0, ActionType.Connect, 0), 1, ActionType.Connect, 0)
    ensures Chain(more) && |more| == 5 && more[0] == worlds[0] && Ripe(more[4])
  {
    var w3 := DecideDraft(worlds[2], 0, Approve, 0, true);
    Longer(worlds, w3);
    Longer(worlds + [w3], DecideDraft(w3, 1, Approve, 0, true));
    more := worlds + [w3] + [DecideDraft(w3, 1, Approve, 0, true)];
  }

  lemma SentTwice(worlds: seq<World>) returns (more: seq<World>)
    requires Chain(worlds) && |worlds| == 5 && Ripe(worlds[4])
    ensures Chain(more) && |more| == 7 && more[0] == worlds[0] && !Exclusive(more[6])
  {
    var w4 := worlds[4];
    NoFailuresYet(w4.log, 0);
    ApprovedInviteLands(w4, 0);
    var w5 := SendApproved(TWO_CAMPAIGNS, w4, 0, SEND);
    Longer(worlds, w5);
    NoFailuresYet(w5.log, 1);
    ApprovedInviteLands(w5, 1);
    var w6 := SendApproved(TWO_CAMPAIGNS, w5, 1, SEND);
    Longer(worlds + [w5], w6);
    assert Rivals(w6, 0, 1) && BothContacted(w6, 0, 1);
    more := worlds + [w5] + [w6];
  }

  lemma ChainIsRun(worlds: seq<World>)
    requires Chain(worlds) && |worlds| == 7
    ensures Run(TWO_CAMPAIGNS, worlds, BOTH_APPROVED)
  {
    forall k | 0 <= k < 6
      ensures Enabled(TWO_CAMPAIGNS, worlds[k], BOTH_APPROVED[k])
      ensures worlds[k + 1] == Apply(TWO_CAMPAIGNS, worlds[k], BOTH_APPROVED[k])
    {
      assert Next(worlds[k], k, worlds[k + 1]);
    }
  }

  /** The approved-send path breaks the exclusion: a real run, from a world with no history. */
  lemma BothApprovedBothInvited() returns (worlds: seq<World>)
    ensures History(TWO_CAMPAIGNS, {}, worlds, BOTH_APPROVED) && Exclusive(worlds[0])
    ensures !Exclusive(worlds[6])
  {
    var queued := QueuedTwice();
    var approved := ApprovedTwice(queued);
    worlds := SentTwice(approved);
    ChainIsRun(worlds);
  }
}
