/** The live outstanding-invite counter against the cursors parked for acceptance.

The counter is bumped when an invite lands and released when one is accepted or
withdrawn; a lead who replies or is removed while parked is not released, so the
counter may drift upward, never downward. */
module InviteLedger {
  import opened Wrappers
  import opened Actions
  import opened Sets
  import opened WorkingSchedule
  import opened FunnelWorld
  import opened FunnelLaws
  import opened FunnelRuns
  import opened FunnelTheorems

  /** Every account's parked cursors are covered by its counter, which stays within the bound. */
  ghost predicate Covered(w: World, bound: nat) {
    forall a :: |ParkedOf(w, a)| <= OutstandingOf(w, a) <= bound
  }

  predicate Parked(w: World, t: TargetId) {
    t in w.cursors && w.cursors[t].state == AwaitingConnection
  }

  /** Nobody but t parks, and nobody changes account while parked. */
  ghost predicate NobodyElseParks(w: World, v: World, t: TargetId) {
    forall u :: Parked(v, u) && u != t ==> Parked(w, u) && w.cursors[u].account == v.cursors[u].account
  }

  ghost predicate NobodyParks(w: World, v: World) {
    forall u :: Parked(v, u) ==> Parked(w, u) && w.cursors[u].account == v.cursors[u].account
  }

  lemma Unmoved(w: World, v: World, bound: nat)
    requires Covered(w, bound) && v.outstanding == w.outstanding && NobodyParks(w, v)
    ensures Covered(v, bound)
  {
    forall a ensures |ParkedOf(v, a)| <= OutstandingOf(v, a) <= bound {
      assert |ParkedOf(w, a)| <= OutstandingOf(w, a) <= bound;
      assert forall u :: u in ParkedOf(v, a) ==> Parked(v, u);
      SubsetIsSmaller(ParkedOf(v, a), ParkedOf(w, a));
    }
  }

  /** An invite lands under a's counter while there is room. */
  lemma OneMore(w: World, v: World, t: TargetId, a: AccountId, bound: nat)
    requires Covered(w, bound) && OutstandingOf(w, a) < bound
    requires v.outstanding == AddOutstanding(w, a).outstanding && NobodyElseParks(w, v, t)
    requires Parked(v, t) ==> v.cursors[t].account == a
    ensures Covered(v, bound)
  {
    forall b ensures |ParkedOf(v, b)| <= OutstandingOf(v, b) <= bound {
      assert |ParkedOf(w, b)| <= OutstandingOf(w, b) <= bound;
      assert forall u :: u in ParkedOf(v, b) ==> Parked(v, u);
      if b == a {
        SubsetIsSmaller(ParkedOf(v, b), ParkedOf(w, b) + {t});
      } else {
        SubsetIsSmaller(ParkedOf(v, b), ParkedOf(w, b));
      }
    }
  }

  /** A parked lead leaves and its account's counter is released. */
  lemma OneLess(w: World, v: World, t: TargetId, bound: nat)
    requires Covered(w, bound) && Parked(w, t) && !Parked(v, t)
    requires v.outstanding == ReleaseOutstanding(w, w.cursors[t].account).outstanding && NobodyElseParks(w, v, t)
    ensures Covered(v, bound)
  {
    forall b ensures |ParkedOf(v, b)| <= OutstandingOf(v, b) <= bound {
      assert |ParkedOf(w, b)| <= OutstandingOf(w, b) <= bound;
      assert forall u :: u in ParkedOf(v, b) ==> Parked(v, u);
      if b == w.cursors[t].account {
        assert t in ParkedOf(w, b);
        SubsetIsSmaller(ParkedOf(v, b), ParkedOf(w, b) - {t});
      } else {
        SubsetIsSmaller(ParkedOf(v, b), ParkedOf(w, b));
      }
    }
  }

  /** Boot re-derives the counter: it is exact again. */
  lemma RestartIsExact(w: World, a: AccountId)
    ensures OutstandingOf(RestartProcess(w), a) == |ParkedOf(w, a)| == |ParkedOf(RestartProcess(w), a)|
  {
    assert ParkedOf(RestartProcess(w), a) == ParkedOf(w, a);
    if a !in RestartProcess(w).outstanding {
      assert forall t :: t in w.cursors ==> w.cursors[t].account in (set u | u in w.cursors :: w.cursors[u].account);
      assert ParkedOf(w, a) == {};
    }
  }

  /** A write that neither parks anybody nor touches the counter. */
  ghost predicate Idle(w: World, v: World) {
    v.outstanding == w.outstanding && NobodyParks(w, v)
  }

  lemma LeavingIsIdle(w: World, t: TargetId, terminal: ProgressState, stage: Stage)
    requires !Active(terminal)
    ensures Idle(w, StopFunnel(w, t, terminal))
    ensures Idle(w, SetStage(StopFunnel(w, t, terminal), t, stage))
  {
  }

  lemma RoutingIsIdle(w: World, t: TargetId, intent: Intent, p: Probe)
    ensures Idle(w, RouteReply(w, t, intent))
    ensures Idle(w, ProbeEffect(w, t, p))
  {
  }

  lemma GuardUnmoved(w: World, t: TargetId, kind: ActionType, i: StepInput)
    requires t in w.cursors && Guard(w, t, kind, i).Some?
    ensures Idle(w, Guard(w, t, kind, i).value.w)
  {
    LeavingIsIdle(w, t, ProgressState.Replied, Lost);
    LeavingIsIdle(w, t, ProgressState.Skipped, Lost);
    RoutingIsIdle(w, t, Stop, i.probe);
    var v := Guard(w, t, kind, i).value.w;
    assert || v == w || v == StopFunnel(w, t, ProgressState.Replied) || v == ProbeEffect(w, t, i.probe)
           || v == SetStage(StopFunnel(w, t, ProgressState.Skipped), t, Lost);
  }

  lemma FireCovered(plan: Plan, w: World, t: TargetId, kind: ActionType, i: StepInput, bound: nat)
    requires Covered(w, bound) && plan.outstandingCeiling <= bound && t in w.cursors && w.cursors[t].state == InProgress
    ensures Covered(Fire(plan, w, t, kind, i).w, bound)
  {
    var c := w.cursors[t];
    var v := Fire(plan, w, t, kind, i).w;
    var level := LevelOf(w, c.campaign);
    if MayExecuteDirectly(level, kind) && GateOpen(plan, w, c.account, kind, i.restAllows)
       && kind == ActionType.Connect && i.exec == Ran(Success) {
      OneMore(w, v, t, c.account, bound);
    } else {
      FireUnmoved(plan, w, t, kind, i);
      Unmoved(w, v, bound);
    }
  }

  /** A fired step that lands no invite parks nobody. */
  lemma FireUnmoved(plan: Plan, w: World, t: TargetId, kind: ActionType, i: StepInput)
    requires t in w.cursors && w.cursors[t].state == InProgress
    requires !(MayExecuteDirectly(LevelOf(w, w.cursors[t].campaign), kind)
               && GateOpen(plan, w, w.cursors[t].account, kind, i.restAllows)
               && kind == ActionType.Connect && i.exec == Ran(Success))
    ensures var v := Fire(plan, w, t, kind, i).w; Idle(w, v)
  {
  }

  lemma StepCovered(plan: Plan, w0: World, t: TargetId, i: StepInput, bound: nat)
    requires Covered(w0, bound) && plan.outstandingCeiling <= bound && t in w0.cursors && w0.cursors[t].state == InProgress
    ensures Covered(DispatchStep(plan, w0, t, i).w, bound)
  {
    var w := At(w0, i.now);
    Unmoved(w0, w, bound);
    var c := w.cursors[t];
    var steps := plan.Steps(c.campaign);
    var v := DispatchStep(plan, w0, t, i).w;
    if c.step < |steps| && steps[c.step].kind != Delay {
      var kind := steps[c.step].kind.action;
      if Guard(w, t, kind, i).Some? {
        GuardUnmoved(w, t, kind, i);
        Unmoved(w, v, bound);
      } else {
        FireCovered(plan, w, t, kind, i, bound);
      }
    } else {
      assert NobodyParks(w, v);
      Unmoved(w, v, bound);
    }
  }

  lemma SendGuardUnmoved(w: World, m: MessageId, i: SendInput)
    requires m < |w.messages|
    ensures SendGuard(w, m, i).Some? ==> Idle(w, SendGuard(w, m, i).value)
    ensures Idle(w, GiveUp(w, m))
  {
    LeavingIsIdle(SetStatus(w, m, Cancelled), w.messages[m].target, ProgressState.Replied, Lost);
    RoutingIsIdle(w, w.messages[m].target, Stop, i.probe);
  }

  lemma SendResultCovered(plan: Plan, w: World, m: MessageId, i: SendInput, bound: nat)
    requires Covered(w, bound) && m < |w.messages|
    requires w.messages[m].target in w.cursors && w.cursors[w.messages[m].target].account == w.messages[m].account
    requires w.messages[m].kind == ActionType.Connect ==> OutstandingOf(w, w.messages[m].account) < bound
    ensures Covered(SendResult(plan, w, m, i), bound)
  {
    var msg := w.messages[m];
    var v := SendResult(plan, w, m, i);
    if msg.kind == ActionType.Connect && i.exec == Ran(Success) {
      OneMore(w, v, msg.target, msg.account, bound);
    } else {
      SendResultUnmoved(plan, w, m, i);
      Unmoved(w, v, bound);
    }
  }

  lemma SendResultUnmoved(plan: Plan, w: World, m: MessageId, i: SendInput)
    requires m < |w.messages| && !(w.messages[m].kind == ActionType.Connect && i.exec == Ran(Success))
    ensures Idle(w, SendResult(plan, w, m, i))
  {
  }

  lemma SendCovered(plan: Plan, warm: set<TargetId>, w0: World, m: MessageId, i: SendInput, bound: nat)
    requires Inv(plan, warm, w0) && m < |w0.messages| && w0.messages[m].status == Approved
    requires Covered(w0, bound) && plan.outstandingCeiling <= bound
    ensures Covered(SendApproved(plan, w0, m, i), bound)
  {
    assert LiveIsParked(plan, w0, m);
    var w := At(w0, i.now);
    var v := SendApproved(plan, w0, m, i);
    Unmoved(w0, w, bound);
    SendGuardUnmoved(w, m, i);
    if !GateOpen(plan, w, w.messages[m].account, w.messages[m].kind, i.restAllows) {
    } else if CountFailed(w.log, w.messages[m].target, w.messages[m].kind, w.messages[m].createdAt) >= MAX_SEND_ATTEMPTS {
      assert v == w || v == GiveUp(w, m);
      Unmoved(w, v, bound);
    } else if SendGuard(w, m, i).Some? {
      Unmoved(w, v, bound);
    } else if !i.exec.MintRefused? {
      SendResultCovered(plan, w, m, i, bound);
    }
  }

  lemma AcceptCovered(plan: Plan, w: World, t: TargetId, now: int, schedule: Schedule, bound: nat)
    requires Covered(w, bound) && Parked(w, t)
    ensures Covered(AcceptInvite(plan, w, t, now, schedule), bound)
  {
    var v := AcceptInvite(plan, w, t, now, schedule);
    if t in w.targets {
      OneLess(w, v, t, bound);
    } else {
      Unmoved(w, v, bound);
    }
  }

  lemma WithdrawCovered(plan: Plan, w: World, t: TargetId, restAllows: bool, x: Exec, bound: nat)
    requires Covered(w, bound) && t in w.cursors
    ensures Covered(WithdrawInviteNow(plan, w, t, restAllows, x), bound)
  {
    var v := WithdrawInviteNow(plan, w, t, restAllows, x);
    if v.outstanding == w.outstanding && NobodyParks(w, v) {
      Unmoved(w, v, bound);
    } else {
      OneLess(w, v, t, bound);
    }
  }

  lemma EventCovered(plan: Plan, warm: set<TargetId>, w: World, e: Event, bound: nat)
    requires Inv(plan, warm, w) && Enabled(plan, w, e) && Covered(w, bound) && plan.outstandingCeiling <= bound
    ensures Covered(Apply(plan, w, e), bound)
  {
    match e
    case Stepped(t, i) => StepCovered(plan, w, t, i, bound);
    case SendTried(m, i) => SendCovered(plan, warm, w, m, i, bound);
    case InviteAccepted(t, now, schedule) => AcceptCovered(plan, w, t, now, schedule, bound);
    case InviteSwept(t) => OneLess(w, ReleaseParked(w, t, ProgressState.Skipped), t, bound);
    case InviteWithdrawn(t, restAllows, x) => WithdrawCovered(plan, w, t, restAllows, x, bound);
    case Restarted =>
      forall a ensures |ParkedOf(RestartProcess(w), a)| <= OutstandingOf(RestartProcess(w), a) <= bound {
        RestartIsExact(w, a);
        assert |ParkedOf(w, a)| <= OutstandingOf(w, a) <= bound;
      }
    case _ =>
      OthersAreIdle(plan, w, e);
      Unmoved(w, Apply(plan, w, e), bound);
  }

  lemma OthersAreIdle(plan: Plan, w: World, e: Event)
    requires Enabled(plan, w, e)
    requires e.ReplyRouted? || e.DraftDecided? || e.LeadRemoved? || e.LeadEnrolled? || e.AutonomySet?
    ensures Idle(w, Apply(plan, w, e))
  {
    match e
    case ReplyRouted(t, intent) => RoutingIsIdle(w, t, intent, Clear);
    case LeadRemoved(t) => LeavingIsIdle(w, t, ProgressState.Skipped, Lost);
    case _ =>
  }

  /** Over every run the counter covers the parked cursors of its account, so a run
      that starts within the ceiling never parks more cursors than the ceiling. */
  lemma {:induction false} OutstandingNeverUndercounts(plan: Plan, warm: set<TargetId>, worlds: seq<World>, events: seq<Event>,
                                                       n: nat, bound: nat, a: AccountId)
    requires History(plan, warm, worlds, events) && n < |worlds|
    requires Covered(worlds[0], bound) && plan.outstandingCeiling <= bound
    ensures Covered(worlds[n], bound)
    ensures |ParkedOf(worlds[n], a)| <= OutstandingOf(worlds[n], a) <= bound
  {
    if n > 0 {
      OutstandingNeverUndercounts(plan, warm, worlds, events, n - 1, bound, a);
      HistoryKept(plan, warm, worlds, events, n - 1, n - 1);
      EventCovered(plan, warm, worlds[n - 1], events[n - 1], bound);
    }
  }

  // ----- and exactly when it drifts

  /** Every account's counter is its pile. */
  ghost predicate Exact(w: World) {
    forall a :: OutstandingOf(w, a) == |ParkedOf(w, a)|
  }

  /** Nobody parks or leaves, and nobody changes account while parked. */
  ghost predicate SamePile(w: World, v: World) {
    && v.outstanding == w.outstanding
    && (forall u :: Parked(v, u) <==> Parked(w, u))
    && (forall u :: Parked(w, u) ==> v.cursors[u].account == w.cursors[u].account)
  }

  /** Exactly t changed its parking; everybody else's is as it was. */
  ghost predicate OnlyParkingOf(w: World, v: World, t: TargetId) {
    && (forall u :: u != t ==> (Parked(v, u) <==> Parked(w, u)))
    && (forall u :: u != t && Parked(w, u) ==> v.cursors[u].account == w.cursors[u].account)
  }

  lemma SamePileStaysExact(w: World, v: World)
    requires Exact(w) && SamePile(w, v)
    ensures Exact(v)
  {
    forall a ensures OutstandingOf(v, a) == |ParkedOf(v, a)| {
      assert OutstandingOf(w, a) == |ParkedOf(w, a)|;
      assert forall u :: u in ParkedOf(v, a) <==> Parked(v, u) && v.cursors[u].account == a;
      assert ParkedOf(v, a) == ParkedOf(w, a);
    }
  }

  lemma ParkingStaysExact(w: World, v: World, t: TargetId, a: AccountId)
    requires Exact(w) && OnlyParkingOf(w, v, t) && !Parked(w, t) && Parked(v, t) && v.cursors[t].account == a
    requires v.outstanding == AddOutstanding(w, a).outstanding
    ensures Exact(v)
  {
    forall b ensures OutstandingOf(v, b) == |ParkedOf(v, b)| {
      assert OutstandingOf(w, b) == |ParkedOf(w, b)|;
      assert forall u :: u in ParkedOf(v, b) <==> Parked(v, u) && v.cursors[u].account == b;
      assert ParkedOf(v, b) == if b == a then ParkedOf(w, b) + {t} else ParkedOf(w, b);
    }
  }

  lemma ReleasingStaysExact(w: World, v: World, t: TargetId)
    requires Exact(w) && OnlyParkingOf(w, v, t) && Parked(w, t) && !Parked(v, t)
    requires v.outstanding == ReleaseOutstanding(w, w.cursors[t].account).outstanding
    ensures Exact(v)
  {
    forall b ensures OutstandingOf(v, b) == |ParkedOf(v, b)| {
      assert OutstandingOf(w, b) == |ParkedOf(w, b)|;
      assert forall u :: u in ParkedOf(v, b) <==> Parked(v, u) && v.cursors[u].account == b;
      assert t in ParkedOf(w, w.cursors[t].account);
      assert ParkedOf(v, b) == if b == w.cursors[t].account then ParkedOf(w, b) - {t} else ParkedOf(w, b);
    }
  }

  /** The events that take a parked lead out without releasing it. */
  predicate PullsParked(w: World, e: Event) {
    match e
    case ReplyRouted(t, _) => Parked(w, t)
    case LeadRemoved(t) => Parked(w, t) && t in w.targets
    case _ => false
  }

  lemma StoppingUnparked(w: World, t: TargetId, terminal: ProgressState, v: World)
    requires !Parked(w, t) && !Active(terminal)
    requires v.cursors == StopFunnel(w, t, terminal).cursors && v.outstanding == w.outstanding
    ensures SamePile(w, v)
  {
  }

  lemma LeavingUnparked(w: World, t: TargetId, terminal: ProgressState, stage: Stage, intent: Intent, p: Probe)
    requires !Parked(w, t) && !Active(terminal)
    ensures SamePile(w, StopFunnel(w, t, terminal)) && SamePile(w, SetStage(StopFunnel(w, t, terminal), t, stage))
    ensures SamePile(w, RouteReply(w, t, intent)) && SamePile(w, ProbeEffect(w, t, p))
  {
    StoppingUnparked(w, t, terminal, StopFunnel(w, t, terminal));
    StoppingUnparked(w, t, terminal, SetStage(StopFunnel(w, t, terminal), t, stage));
    StoppingUnparked(w, t, ProgressState.Replied, RouteReply(w, t, intent));
    if p.Answered? && p.route.Some? {
      StoppingUnparked(w, t, ProgressState.Replied, RouteReply(w, t, p.route.value));
    }
  }

  lemma GuardSamePile(w: World, t: TargetId, kind: ActionType, i: StepInput)
    requires t in w.cursors && w.cursors[t].state == InProgress && Guard(w, t, kind, i).Some?
    ensures SamePile(w, Guard(w, t, kind, i).value.w)
  {
    LeavingUnparked(w, t, ProgressState.Replied, Lost, Stop, i.probe);
    LeavingUnparked(w, t, ProgressState.Skipped, Lost, Stop, i.probe);
    var v := Guard(w, t, kind, i).value.w;
    assert || v == w || v == StopFunnel(w, t, ProgressState.Replied) || v == ProbeEffect(w, t, i.probe)
           || v == SetStage(StopFunnel(w, t, ProgressState.Skipped), t, Lost);
  }

  lemma FireSamePile(plan: Plan, w: World, t: TargetId, kind: ActionType, i: StepInput)
    requires t in w.cursors && w.cursors[t].state == InProgress
    requires !(MayExecuteDirectly(LevelOf(w, w.cursors[t].campaign), kind)
               && GateOpen(plan, w, w.cursors[t].account, kind, i.restAllows)
               && kind == ActionType.Connect && i.exec == Ran(Success))
    ensures SamePile(w, Fire(plan, w, t, kind, i).w)
  {
  }

  lemma StepStaysExact(plan: Plan, w0: World, t: TargetId, i: StepInput)
    requires Exact(w0) && t in w0.cursors && w0.cursors[t].state == InProgress
    ensures Exact(DispatchStep(plan, w0, t, i).w)
  {
    var w := At(w0, i.now);
    SamePileStaysExact(w0, w);
    var c := w.cursors[t];
    var steps := plan.Steps(c.campaign);
    var v := DispatchStep(plan, w0, t, i).w;
    if c.step < |steps| && steps[c.step].kind != Delay {
      var kind := steps[c.step].kind.action;
      if Guard(w, t, kind, i).Some? {
        GuardSamePile(w, t, kind, i);
        SamePileStaysExact(w, v);
      } else {
        FireStaysExact(plan, w, t, kind, i);
      }
    } else {
      assert SamePile(w, v);
      SamePileStaysExact(w, v);
    }
  }

  lemma FireStaysExact(plan: Plan, w: World, t: TargetId, kind: ActionType, i: StepInput)
    requires Exact(w) && t in w.cursors && w.cursors[t].state == InProgress
    ensures Exact(Fire(plan, w, t, kind, i).w)
  {
    var c := w.cursors[t];
    var v := Fire(plan, w, t, kind, i).w;
    if MayExecuteDirectly(LevelOf(w, c.campaign), kind) && GateOpen(plan, w, c.account, kind, i.restAllows)
       && kind == ActionType.Connect && i.exec == Ran(Success) {
      ParkingStaysExact(w, v, t, c.account);
    } else {
      FireSamePile(plan, w, t, kind, i);
      SamePileStaysExact(w, v);
    }
  }

  lemma GiveUpSamePile(w: World, m: MessageId)
    requires m < |w.messages| && !Parked(w, w.messages[m].target)
    ensures SamePile(w, GiveUp(w, m))
  {
  }

  lemma SendGuardSamePile(w: World, m: MessageId, i: SendInput)
    requires m < |w.messages| && !Parked(w, w.messages[m].target)
    ensures SendGuard(w, m, i).Some? ==> SamePile(w, SendGuard(w, m, i).value)
  {
    LeavingUnparked(SetStatus(w, m, Cancelled), w.messages[m].target, ProgressState.Replied, Lost, Stop, i.probe);
    LeavingUnparked(w, w.messages[m].target, ProgressState.Replied, Lost, Stop, i.probe);
    if SendGuard(w, m, i).Some? {
      SendGuardShape(w, m, i);
    }
  }

  lemma SendResultSamePile(plan: Plan, w: World, m: MessageId, i: SendInput)
    requires m < |w.messages| && !(w.messages[m].kind == ActionType.Connect && i.exec == Ran(Success))
    requires w.messages[m].target in w.cursors && w.cursors[w.messages[m].target].state == AwaitingApproval
    ensures SamePile(w, SendResult(plan, w, m, i))
  {
  }

  /** An approved invite that lands parks its lead and adds it to the pile. */
  lemma LandedInviteStaysExact(plan: Plan, w: World, m: MessageId, i: SendInput)
    requires m < |w.messages| && w.messages[m].kind == ActionType.Connect && i.exec == Ran(Success) && Exact(w)
    requires var t := w.messages[m].target;
             t in w.cursors && w.cursors[t].state == AwaitingApproval && w.cursors[t].account == w.messages[m].account
    ensures Exact(SendResult(plan, w, m, i))
  {
    ParkingStaysExact(w, SendResult(plan, w, m, i), w.messages[m].target, w.messages[m].account);
  }

  lemma SendStaysExact(plan: Plan, warm: set<TargetId>, w0: World, m: MessageId, i: SendInput)
    requires Inv(plan, warm, w0) && Exact(w0) && m < |w0.messages| && w0.messages[m].status == Approved
    ensures Exact(SendApproved(plan, w0, m, i))
  {
    assert LiveIsParked(plan, w0, m);
    var w := At(w0, i.now);
    var v := SendApproved(plan, w0, m, i);
    var msg := w.messages[m];
    SamePileStaysExact(w0, w);
    if !GateOpen(plan, w, msg.account, msg.kind, i.restAllows) || v == w {
    } else if CountFailed(w.log, msg.target, msg.kind, msg.createdAt) >= MAX_SEND_ATTEMPTS || SendGuard(w, m, i).Some? {
      GiveUpSamePile(w, m);
      SendGuardSamePile(w, m, i);
      SamePileStaysExact(w, v);
    } else if msg.kind == ActionType.Connect && i.exec == Ran(Success) {
      LandedInviteStaysExact(plan, w, m, i);
    } else {
      SendResultSamePile(plan, w, m, i);
      SamePileStaysExact(w, v);
    }
  }

  lemma WithdrawStaysExact(plan: Plan, w: World, t: TargetId, restAllows: bool, x: Exec)
    requires Exact(w) && t in w.cursors
    ensures Exact(WithdrawInviteNow(plan, w, t, restAllows, x))
  {
    var v := WithdrawInviteNow(plan, w, t, restAllows, x);
    if SamePile(w, v) {
      SamePileStaysExact(w, v);
    } else {
      ReleasingStaysExact(w, v, t);
    }
  }

  lemma AcceptStaysExact(plan: Plan, w: World, t: TargetId, now: int, schedule: Schedule)
    requires ParkedIsInvited(w) && Exact(w) && Parked(w, t)
    ensures Exact(AcceptInvite(plan, w, t, now, schedule))
  {
    ReleasingStaysExact(w, AcceptInvite(plan, w, t, now, schedule), t);
  }

  lemma OthersStayExact(plan: Plan, w: World, e: Event)
    requires ParkedIsInvited(w) && Enabled(plan, w, e) && Exact(w) && !PullsParked(w, e)
    requires !e.Stepped? && !e.SendTried? && !e.InviteWithdrawn? && !e.Restarted?
    ensures Exact(Apply(plan, w, e))
  {
    var v := Apply(plan, w, e);
    match e
    case InviteAccepted(t, now, schedule) => AcceptStaysExact(plan, w, t, now, schedule);
    case InviteSwept(t) => ReleasingStaysExact(w, v, t);
    case ReplyRouted(t, intent) =>
      LeavingUnparked(w, t, ProgressState.Replied, Lost, intent, NoProbe);
      SamePileStaysExact(w, v);
    case LeadRemoved(t) =>
      LeavingUnparkedOrAbsent(w, t);
      SamePileStaysExact(w, v);
    case LeadEnrolled(t, a, startAt, listing) => EnrollStaysExact(w, t, a, startAt, listing);
    case DraftDecided(m, d, body, resume) => DecisionStaysExact(w, m, d, body, resume);
    case _ => SamePileStaysExact(w, v);
  }

  lemma EnrollStaysExact(w: World, t: TargetId, a: AccountId, startAt: Option<int>, listing: seq<TargetId>)
    requires Exact(w)
    ensures Exact(EnrollTarget(w, t, a, startAt, listing))
  {
    SamePileStaysExact(w, EnrollTarget(w, t, a, startAt, listing));
  }

  lemma DecisionStaysExact(w: World, m: MessageId, d: ApprovalDecision, body: Body, resume: bool)
    requires Exact(w) && m < |w.messages|
    ensures Exact(DecideDraft(w, m, d, body, resume))
  {
    SamePileStaysExact(w, DecideDraft(w, m, d, body, resume));
  }

  lemma LeavingUnparkedOrAbsent(w: World, t: TargetId)
    requires !(Parked(w, t) && t in w.targets)
    ensures SamePile(w, RemoveTarget(w, t))
  {
  }

  lemma PullingBreaks(w: World, v: World, a: AccountId)
    requires Exact(w) && OutstandingOf(v, a) == OutstandingOf(w, a) && |ParkedOf(v, a)| == |ParkedOf(w, a)| - 1
    ensures !Exact(v)
  {
    assert OutstandingOf(w, a) == |ParkedOf(w, a)|;
    assert OutstandingOf(v, a) != |ParkedOf(v, a)|;
  }

  /** An exact counter stays exact under every event except one that pulls a parked lead. */
  lemma ExactUnlessPulled(plan: Plan, warm: set<TargetId>, w: World, e: Event)
    requires Inv(plan, warm, w) && Enabled(plan, w, e) && Exact(w)
    ensures Exact(Apply(plan, w, e)) <==> !PullsParked(w, e)
  {
    if PullsParked(w, e) {
      PullingAParkedLeadDrifts(w, e.t, if e.ReplyRouted? then e.intent else Stop);
      PullingBreaks(w, Apply(plan, w, e), w.cursors[e.t].account);
    } else {
      match e
      case Stepped(t, i) => StepStaysExact(plan, w, t, i);
      case SendTried(m, i) => SendStaysExact(plan, warm, w, m, i);
      case InviteWithdrawn(t, restAllows, x) => WithdrawStaysExact(plan, w, t, restAllows, x);
      case Restarted =>
        forall a ensures OutstandingOf(RestartProcess(w), a) == |ParkedOf(RestartProcess(w), a)| {
          RestartIsExact(w, a);
        }
      case _ => OthersStayExact(plan, w, e);
    }
  }

  /** Where the drift comes from: a reply or a removal takes a parked lead out of the
      pile, and the counter keeps counting it until the next boot. */
  lemma PullingAParkedLeadDrifts(w: World, t: TargetId, intent: Intent)
    requires Parked(w, t) && t in w.targets
    ensures var a := w.cursors[t].account;
            var v := RouteReply(w, t, intent);
            OutstandingOf(v, a) == OutstandingOf(w, a) && |ParkedOf(v, a)| == |ParkedOf(w, a)| - 1
    ensures var a := w.cursors[t].account;
            var v := RemoveTarget(w, t);
            OutstandingOf(v, a) == OutstandingOf(w, a) && |ParkedOf(v, a)| == |ParkedOf(w, a)| - 1
  {
    var a := w.cursors[t].account;
    assert ParkedOf(RouteReply(w, t, intent), a) == ParkedOf(w, a) - {t};
    assert ParkedOf(RemoveTarget(w, t), a) == ParkedOf(w, a) - {t};
  }

  /** Every cursor awaiting acceptance belongs to a lead at stage 'invited'. */
  lemma ParkedLeadIsInvited(plan: Plan, warm: set<TargetId>, worlds: seq<World>, events: seq<Event>, n: nat, t: TargetId)
    requires History(plan, warm, worlds, events) && n < |worlds| && Parked(worlds[n], t)
    ensures t in worlds[n].targets && worlds[n].targets[t].stage == Invited
  {
    HistoryKept(plan, warm, worlds, events, n, n);
  }
}
