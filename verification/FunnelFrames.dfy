/** One event is about one lead: everybody else's cursor, stage and rows stay put.
And what an event can do to that lead: leave it parked for an approval that no
longer exists, in exactly two ways. */
module FunnelFrames {
  import opened Wrappers
  import opened Actions
  import opened FunnelWorld
  import opened FunnelLaws
  import opened FunnelMoves
  import opened FunnelRuns

  /** Lead t's own rows are as before. */
  ghost predicate SameLead(w: World, v: World, t: TargetId) {
    && (t in v.cursors <==> t in w.cursors) && (t in w.cursors ==> v.cursors[t] == w.cursors[t])
    && (t in v.targets <==> t in w.targets) && (t in w.targets ==> v.targets[t] == w.targets[t])
    && |w.messages| <= |v.messages|
    && (forall m :: 0 <= m < |w.messages| && w.messages[m].target == t ==> v.messages[m] == w.messages[m])
    && (forall m :: 0 <= m < |v.messages| && v.messages[m].target == t ==> m < |w.messages| && w.messages[m].target == t)
  }

  /** The lead an event is about. */
  function Subject(w: World, e: Event): Option<TargetId> {
    match e
    case Stepped(t, _) => Some(t)
    case SendTried(m, _) => if m < |w.messages| then Some(w.messages[m].target) else None
    case InviteAccepted(t, _, _) => Some(t)
    case ReplyRouted(t, _) => Some(t)
    case DraftDecided(m, _, _, _) => if m < |w.messages| then Some(w.messages[m].target) else None
    case InviteSwept(t) => Some(t)
    case InviteWithdrawn(t, _, _) => Some(t)
    case LeadRemoved(t) => Some(t)
    case LeadEnrolled(t, _, _, _) => Some(t)
    case AutonomySet(_, _) | Restarted => None
  }

  lemma SameTwice(u: World, v: World, w: World, t: TargetId)
    requires SameLead(u, v, t) && SameLead(v, w, t)
    ensures SameLead(u, w, t)
  {
  }

  lemma StopOthers(w: World, t: TargetId, terminal: ProgressState, u: TargetId)
    requires u != t
    ensures SameLead(w, StopFunnel(w, t, terminal), u)
  {
  }

  lemma StageOthers(w: World, t: TargetId, stage: Stage, u: TargetId)
    requires u != t
    ensures SameLead(w, SetStage(w, t, stage), u)
  {
  }

  /** A stop followed by a stage change, with side tables and the log free. */
  lemma StopAndStage(w: World, t: TargetId, terminal: ProgressState, stage: Stage, v: World, u: TargetId)
    requires u != t && var s := SetStage(StopFunnel(w, t, terminal), t, stage);
                       v.cursors == s.cursors && v.targets == s.targets && v.messages == s.messages
    ensures SameLead(w, v, u)
  {
    var left := StopFunnel(w, t, terminal);
    StopOthers(w, t, terminal, u);
    StageOthers(left, t, stage, u);
    SameTwice(w, left, SetStage(left, t, stage), u);
  }

  lemma LeavingOthers(w: World, t: TargetId, terminal: ProgressState, intent: Intent, p: Probe, u: TargetId)
    requires u != t
    ensures SameLead(w, StopFunnel(w, t, terminal), u)
    ensures SameLead(w, SetStage(StopFunnel(w, t, terminal), t, Lost), u)
    ensures SameLead(w, RouteReply(w, t, intent), u) && SameLead(w, ProbeEffect(w, t, p), u)
  {
    StopOthers(w, t, terminal, u);
    StopAndStage(w, t, terminal, Lost, SetStage(StopFunnel(w, t, terminal), t, Lost), u);
    StopAndStage(w, t, ProgressState.Replied, StageFor(intent), RouteReply(w, t, intent), u);
    if p.Answered? && p.route.Some? {
      StopAndStage(w, t, ProgressState.Replied, StageFor(p.route.value), RouteReply(w, t, p.route.value), u);
    }
  }

  lemma GuardOthers(w: World, t: TargetId, kind: ActionType, i: StepInput, u: TargetId)
    requires t in w.cursors && u != t && Guard(w, t, kind, i).Some?
    ensures SameLead(w, Guard(w, t, kind, i).value.w, u)
  {
    LeavingOthers(w, t, ProgressState.Replied, Stop, i.probe, u);
    LeavingOthers(w, t, ProgressState.Skipped, Stop, i.probe, u);
    var v := Guard(w, t, kind, i).value.w;
    assert || v == w || v == StopFunnel(w, t, ProgressState.Replied) || v == ProbeEffect(w, t, i.probe)
           || v == SetStage(StopFunnel(w, t, ProgressState.Skipped), t, Lost);
  }

  /** Lead t's cursor, stage and one of its rows are written; the side tables and the log are free. */
  ghost predicate WritesLead(w: World, v: World, t: TargetId) {
    && (v.cursors == w.cursors || (t in w.cursors && t in v.cursors && v.cursors == w.cursors[t := v.cursors[t]]))
    && (v.targets == w.targets || (t in w.targets && t in v.targets && v.targets == w.targets[t := v.targets[t]]))
    && (v.messages == w.messages
        || (|v.messages| == |w.messages| + 1 && v.messages[..|w.messages|] == w.messages && v.messages[|w.messages|].target == t)
        || exists m :: 0 <= m < |w.messages| && w.messages[m].target == t && RowRewritten(w.messages, v.messages, m, t))
  }

  predicate RowRewritten(before: seq<Message>, after: seq<Message>, m: nat, t: TargetId)
    requires m < |before|
  {
    |after| == |before| && after[m].target == t && after == before[m := after[m]]
  }

  lemma WritingOthers(w: World, v: World, t: TargetId, u: TargetId)
    requires WritesLead(w, v, t) && u != t
    ensures SameLead(w, v, u)
  {
    forall m | 0 <= m < |w.messages| && w.messages[m].target == u ensures v.messages[m] == w.messages[m] {
      assert |v.messages| == |w.messages| + 1 ==> v.messages[m] == v.messages[..|w.messages|][m];
    }
    forall m | 0 <= m < |v.messages| && v.messages[m].target == u ensures m < |w.messages| && w.messages[m].target == u {
      assert |v.messages| == |w.messages| + 1 && m < |w.messages| ==> v.messages[m] == v.messages[..|w.messages|][m];
    }
  }

  lemma ExecOthers(w: World, t: TargetId, a: AccountId, kind: ActionType, x: Exec, via: Via, u: TargetId)
    ensures SameLead(w, ExecEffect(w, t, a, kind, x, via), u)
  {
  }

  lemma CursorAndStage(w: World, t: TargetId, stage: Stage, d: Cursor, u: TargetId)
    requires t in w.cursors && u != t
    ensures SameLead(w, SetCursor(w, t, d), u)
    ensures SameLead(w, SetCursor(SetStage(w, t, stage), t, d), u)
  {
    WritingOthers(w, SetCursor(w, t, d), t, u);
    WritingOthers(w, SetCursor(SetStage(w, t, stage), t, d), t, u);
  }

  /** Wherever a directly fired step goes, it ends in one write of the lead's cursor and perhaps its stage. */
  lemma FireResolves(plan: Plan, w: World, t: TargetId, kind: ActionType, i: StepInput)
    requires t in w.cursors && MayExecuteDirectly(LevelOf(w, w.cursors[t].campaign), kind)
    ensures var v := Fire(plan, w, t, kind, i).w;
            var c := w.cursors[t];
            var ran := ExecEffect(w, t, c.account, kind, i.exec, Direct(LevelOf(w, c.campaign), c.step));
            v == w || Resolved(ran, v, t)
  {
  }

  lemma FireOthers(plan: Plan, w: World, t: TargetId, kind: ActionType, i: StepInput, u: TargetId)
    requires t in w.cursors && u != t
    ensures SameLead(w, Fire(plan, w, t, kind, i).w, u)
  {
    var c := w.cursors[t];
    var v := Fire(plan, w, t, kind, i).w;
    if !MayExecuteDirectly(LevelOf(w, c.campaign), kind) {
      WritingOthers(w, v, t, u);
    } else if v != w {
      var ran := ExecEffect(w, t, c.account, kind, i.exec, Direct(LevelOf(w, c.campaign), c.step));
      ExecOthers(w, t, c.account, kind, i.exec, Direct(LevelOf(w, c.campaign), c.step), u);
      FireResolves(plan, w, t, kind, i);
      ResolvingOthers(ran, v, t, u);
      SameTwice(w, ran, v, u);
    }
  }

  lemma StepOthers(plan: Plan, w: World, t: TargetId, i: StepInput, u: TargetId)
    requires t in w.cursors && u != t
    ensures SameLead(w, DispatchStep(plan, w, t, i).w, u)
  {
    var now := At(w, i.now);
    var steps := plan.Steps(now.cursors[t].campaign);
    if now.cursors[t].step < |steps| && steps[now.cursors[t].step].kind != Delay {
      var kind := steps[now.cursors[t].step].kind.action;
      if Guard(now, t, kind, i).Some? {
        GuardOthers(now, t, kind, i, u);
      } else {
        FireOthers(plan, now, t, kind, i, u);
      }
    }
  }

  lemma StatusOthers(w: World, m: MessageId, status: MessageStatus, u: TargetId)
    requires m < |w.messages| && u != w.messages[m].target
    ensures SameLead(w, SetStatus(w, m, status), u)
  {
    assert RowRewritten(w.messages, SetStatus(w, m, status).messages, m, w.messages[m].target);
    WritingOthers(w, SetStatus(w, m, status), w.messages[m].target, u);
  }

  /** The last writes of a delivery: the lead's cursor and perhaps its stage. */
  predicate Resolved(marked: World, v: World, t: TargetId) {
    || v == marked || v == SetStage(marked, t, Invited)
    || (t in marked.cursors && t in v.cursors
        && (v == SetCursor(marked, t, v.cursors[t]) || v == SetCursor(SetStage(marked, t, Invited), t, v.cursors[t])))
  }

  lemma ResolvingOthers(marked: World, v: World, t: TargetId, u: TargetId)
    requires Resolved(marked, v, t) && u != t
    ensures SameLead(marked, v, u)
  {
    StageOthers(marked, t, Invited, u);
    if t in marked.cursors && t in v.cursors {
      CursorAndStage(marked, t, Invited, v.cursors[t], u);
    }
  }

  lemma DeliveryResolves(plan: Plan, w: World, m: MessageId, i: SendInput)
    requires m < |w.messages| && i.exec == Ran(Success)
    ensures var msg := w.messages[m];
            var ran := ExecEffect(w, msg.target, msg.account, msg.kind, i.exec, ByApproval(m, msg.body));
            Resolved(SetStatus(ran, m, Sent), SendResult(plan, w, m, i), msg.target)
  {
  }

  lemma NothingSentResolves(plan: Plan, w: World, m: MessageId, i: SendInput)
    requires m < |w.messages| && i.exec == Ran(ActionResult.Skipped)
    ensures var msg := w.messages[m];
            var ran := ExecEffect(w, msg.target, msg.account, msg.kind, i.exec, ByApproval(m, msg.body));
            Resolved(SetStatus(ran, m, Cancelled), SendResult(plan, w, m, i), msg.target)
  {
  }

  lemma SendResultOthers(plan: Plan, w: World, m: MessageId, i: SendInput, u: TargetId)
    requires m < |w.messages| && u != w.messages[m].target
    ensures SameLead(w, SendResult(plan, w, m, i), u)
  {
    var msg := w.messages[m];
    var v := SendResult(plan, w, m, i);
    var ran := ExecEffect(w, msg.target, msg.account, msg.kind, i.exec, ByApproval(m, msg.body));
    ExecOthers(w, msg.target, msg.account, msg.kind, i.exec, ByApproval(m, msg.body), u);
    if i.exec == Ran(Success) {
      DeliveryResolves(plan, w, m, i);
      MarkedOthers(w, ran, m, Sent, v, u);
    } else if i.exec == Ran(ActionResult.Skipped) {
      NothingSentResolves(plan, w, m, i);
      MarkedOthers(w, ran, m, Cancelled, v, u);
    }
  }

  lemma MarkedOthers(w: World, ran: World, m: MessageId, status: MessageStatus, v: World, u: TargetId)
    requires m < |w.messages| && u != w.messages[m].target && ran.messages == w.messages && SameLead(w, ran, u)
    requires Resolved(SetStatus(ran, m, status), v, w.messages[m].target)
    ensures SameLead(w, v, u)
  {
    var marked := SetStatus(ran, m, status);
    StatusOthers(ran, m, status, u);
    SameTwice(w, ran, marked, u);
    ResolvingOthers(marked, v, w.messages[m].target, u);
    SameTwice(w, marked, v, u);
  }

  lemma SendGuardOthers(w: World, m: MessageId, i: SendInput, u: TargetId)
    requires m < |w.messages| && u != w.messages[m].target
    ensures SendGuard(w, m, i).Some? ==> SameLead(w, SendGuard(w, m, i).value, u)
  {
    var t := w.messages[m].target;
    var dropped := SetStatus(w, m, Cancelled);
    assert RowRewritten(w.messages, dropped.messages, m, t);
    WritingOthers(w, dropped, t, u);
    StopOthers(dropped, t, ProgressState.Replied, u);
    SameTwice(w, dropped, CancelApproved(w, m), u);
    LeavingOthers(w, t, ProgressState.Replied, Stop, i.probe, u);
  }

  lemma GiveUpOthers(w: World, m: MessageId, u: TargetId)
    requires m < |w.messages| && u != w.messages[m].target
    ensures SameLead(w, GiveUp(w, m), u)
  {
    assert RowRewritten(w.messages, GiveUp(w, m).messages, m, w.messages[m].target);
    WritingOthers(w, GiveUp(w, m), w.messages[m].target, u);
  }

  lemma SendOthers(plan: Plan, w: World, m: MessageId, i: SendInput, u: TargetId)
    requires m < |w.messages| && u != w.messages[m].target
    ensures SameLead(w, SendApproved(plan, w, m, i), u)
  {
    var now := At(w, i.now);
    SendGuardOthers(now, m, i, u);
    GiveUpOthers(now, m, u);
    SendResultOthers(plan, now, m, i, u);
  }

  lemma RemovalOthers(w: World, t: TargetId, u: TargetId)
    requires u != t
    ensures SameLead(w, RemoveTarget(w, t), u)
  {
    if t in w.targets {
      var left := StopFunnel(w, t, ProgressState.Skipped);
      StopOthers(w, t, ProgressState.Skipped, u);
      WritingOthers(left, RemoveTarget(w, t), t, u);
      SameTwice(w, left, RemoveTarget(w, t), u);
    }
  }

  lemma DecisionOthers(w: World, m: MessageId, d: ApprovalDecision, body: Body, resume: bool, u: TargetId)
    requires m < |w.messages| && u != w.messages[m].target
    ensures SameLead(w, DecideDraft(w, m, d, body, resume), u)
  {
    var v := DecideDraft(w, m, d, body, resume);
    assert v.messages == w.messages || RowRewritten(w.messages, v.messages, m, w.messages[m].target);
    WritingOthers(w, v, w.messages[m].target, u);
  }

  /** Nobody but the subject is touched. */
  lemma EventLeavesOthers(plan: Plan, w: World, e: Event, u: TargetId)
    requires Enabled(plan, w, e) && Subject(w, e) != Some(u)
    ensures SameLead(w, Apply(plan, w, e), u)
  {
    match e
    case Stepped(t, i) => StepOthers(plan, w, t, i, u);
    case SendTried(m, i) => SendOthers(plan, w, m, i, u);
    case ReplyRouted(t, intent) => LeavingOthers(w, t, ProgressState.Replied, intent, NoProbe, u);
    case LeadRemoved(t) => RemovalOthers(w, t, u);
    case DraftDecided(m, d, body, resume) => DecisionOthers(w, m, d, body, resume, u);
    case InviteAccepted(t, now, schedule) => WritingOthers(w, AcceptInvite(plan, w, t, now, schedule), t, u);
    case InviteSwept(t) => WritingOthers(w, ReleaseParked(w, t, ProgressState.Skipped), t, u);
    case InviteWithdrawn(t, restAllows, x) => WithdrawalOthers(plan, w, t, restAllows, x, u);
    case _ =>
  }

  lemma WithdrawalOthers(plan: Plan, w: World, t: TargetId, restAllows: bool, x: Exec, u: TargetId)
    requires t in w.cursors && u != t
    ensures SameLead(w, WithdrawInviteNow(plan, w, t, restAllows, x), u)
  {
    WritingOthers(w, WithdrawInviteNow(plan, w, t, restAllows, x), t, u);
  }

  // ----- leads stranded behind a draft that is gone

  ghost predicate HasLiveDraft(w: World, t: TargetId) {
    exists m :: 0 <= m < |w.messages| && w.messages[m].target == t && Live(w.messages[m].status)
  }

  /** Parked for an approval nobody can give any more. */
  ghost predicate Stranded(w: World, t: TargetId) {
    t in w.cursors && w.cursors[t].state == AwaitingApproval && !HasLiveDraft(w, t)
  }

  /** The send got as far as a browser visit that found nothing to send. */
  predicate NothingToSend(plan: Plan, w0: World, m: MessageId, i: SendInput)
    requires m < |w0.messages|
  {
    var w := At(w0, i.now);
    var msg := w.messages[m];
    && GateOpen(plan, w, msg.account, msg.kind, i.restAllows)
    && CountFailed(w.log, msg.target, msg.kind, msg.createdAt) < MAX_SEND_ATTEMPTS
    && SendGuard(w, m, i).None?
    && i.exec == Ran(ActionResult.Skipped) && msg.kind != ActionType.Connect
  }

  /** The two ways: a rejection through the audit-only route, and a non-invite send with nothing to send. */
  predicate Strands(plan: Plan, w: World, e: Event) {
    match e
    case DraftDecided(m, d, _, resume) => m < |w.messages| && w.messages[m].status == Draft && d == Reject && !resume
    case SendTried(m, i) => m < |w.messages| && NothingToSend(plan, w, m, i)
    case _ => false
  }

  lemma SameLeadSameStranding(w: World, v: World, t: TargetId)
    requires SameLead(w, v, t)
    ensures Stranded(v, t) <==> Stranded(w, t)
  {
    if HasLiveDraft(w, t) {
      var m :| 0 <= m < |w.messages| && w.messages[m].target == t && Live(w.messages[m].status);
      assert v.messages[m] == w.messages[m];
    }
    if HasLiveDraft(v, t) {
      var m :| 0 <= m < |v.messages| && v.messages[m].target == t && Live(v.messages[m].status);
      assert v.messages[m] == w.messages[m];
    }
  }

  lemma StepStrandsNobody(plan: Plan, w: World, t: TargetId, i: StepInput)
    requires t in w.cursors && w.cursors[t].state == InProgress
    ensures !Stranded(DispatchStep(plan, w, t, i).w, t)
  {
    var now := At(w, i.now);
    var v := DispatchStep(plan, w, t, i).w;
    var steps := plan.Steps(now.cursors[t].campaign);
    if now.cursors[t].step < |steps| && steps[now.cursors[t].step].kind != Delay {
      var kind := steps[now.cursors[t].step].kind.action;
      if Guard(now, t, kind, i).Some? {
        GuardNeverParks(now, t, kind, i);
      } else {
        FireParksBehindDraft(plan, now, t, kind, i);
      }
    }
  }

  lemma GuardNeverParks(w: World, t: TargetId, kind: ActionType, i: StepInput)
    requires t in w.cursors && w.cursors[t].state == InProgress && Guard(w, t, kind, i).Some?
    ensures var v := Guard(w, t, kind, i).value.w; t in v.cursors && v.cursors[t].state != AwaitingApproval
  {
  }

  lemma FireParksBehindDraft(plan: Plan, w: World, t: TargetId, kind: ActionType, i: StepInput)
    requires t in w.cursors && w.cursors[t].state == InProgress
    ensures !Stranded(Fire(plan, w, t, kind, i).w, t)
  {
    var v := Fire(plan, w, t, kind, i).w;
    if v == QueueDraft(w, t, kind, i.draft) {
      assert v.messages[|w.messages|].target == t && Live(v.messages[|w.messages|].status);
    }
  }

  /** A send on the lead's only row: it stays, or the cursor moves on, unless there was nothing to send. */
  lemma SendStrandsIff(plan: Plan, warm: set<TargetId>, w: World, m: MessageId, i: SendInput)
    requires Inv(plan, warm, w) && m < |w.messages| && w.messages[m].status == Approved
    ensures Stranded(SendApproved(plan, w, m, i), w.messages[m].target) <==> NothingToSend(plan, w, m, i)
  {
    var t := w.messages[m].target;
    var now := At(w, i.now);
    var v := SendApproved(plan, w, m, i);
    assert LiveIsParked(plan, w, m);
    var msg := now.messages[m];
    if !GateOpen(plan, now, msg.account, msg.kind, i.restAllows) {
      assert Live(v.messages[m].status);
    } else if CountFailed(now.log, msg.target, msg.kind, msg.createdAt) >= MAX_SEND_ATTEMPTS {
      assert v == GiveUp(now, m) || (v == now && Live(v.messages[m].status));
    } else if SendGuard(now, m, i).Some? {
      SendGuardStrandsNobody(now, m, i);
    } else if i.exec == Ran(ActionResult.Skipped) || i.exec == Ran(Success) {
      SendResultStrandsIff(plan, now, m, i);
    } else {
      assert Live(v.messages[m].status) && v.messages[m].target == t;
    }
  }

  lemma SendGuardStrandsNobody(w: World, m: MessageId, i: SendInput)
    requires m < |w.messages| && w.messages[m].status == Approved && SendGuard(w, m, i).Some?
    ensures !Stranded(SendGuard(w, m, i).value, w.messages[m].target)
  {
    var v := SendGuard(w, m, i).value;
    assert v == w ==> Live(v.messages[m].status);
  }

  lemma SendResultStrandsIff(plan: Plan, w: World, m: MessageId, i: SendInput)
    requires DraftsParked(plan, w) && m < |w.messages| && w.messages[m].status == Approved
    requires w.messages[m].target in w.cursors && w.cursors[w.messages[m].target].state == AwaitingApproval
    requires i.exec == Ran(ActionResult.Skipped) || i.exec == Ran(Success)
    ensures Stranded(SendResult(plan, w, m, i), w.messages[m].target)
            <==> i.exec == Ran(ActionResult.Skipped) && w.messages[m].kind != ActionType.Connect
  {
    var t := w.messages[m].target;
    var v := SendResult(plan, w, m, i);
    if i.exec == Ran(ActionResult.Skipped) && w.messages[m].kind != ActionType.Connect {
      OnlyDraftGone(plan, w, v, m);
      assert v.messages[m].status == Cancelled;
    }
  }

  lemma DecisionStrandsIff(plan: Plan, warm: set<TargetId>, w: World, m: MessageId, d: ApprovalDecision, body: Body, resume: bool)
    requires Inv(plan, warm, w) && m < |w.messages| && !Stranded(w, w.messages[m].target)
    ensures Stranded(DecideDraft(w, m, d, body, resume), w.messages[m].target)
            <==> w.messages[m].status == Draft && d == Reject && !resume
  {
    var v := DecideDraft(w, m, d, body, resume);
    if w.messages[m].status == Draft {
      assert LiveIsParked(plan, w, m);
      if d == Reject {
        OnlyDraftGone(plan, w, v, m);
      } else {
        assert Live(v.messages[m].status) && v.messages[m].target == w.messages[m].target;
      }
    }
  }

  /** A lead that was not stranded is stranded by an event about it exactly in those two ways. */
  lemma StrandedExactlyBy(plan: Plan, warm: set<TargetId>, w: World, e: Event, t: TargetId)
    requires Inv(plan, warm, w) && Enabled(plan, w, e) && !Stranded(w, t)
    ensures Stranded(Apply(plan, w, e), t) <==> Subject(w, e) == Some(t) && Strands(plan, w, e)
  {
    if Subject(w, e) != Some(t) {
      EventLeavesOthers(plan, w, e, t);
      SameLeadSameStranding(w, Apply(plan, w, e), t);
    } else {
      match e
      case Stepped(_, i) => StepStrandsNobody(plan, w, t, i);
      case SendTried(m, i) => SendStrandsIff(plan, warm, w, m, i);
      case DraftDecided(m, d, body, resume) => DecisionStrandsIff(plan, warm, w, m, d, body, resume);
      case _ => OthersStrandNobody(plan, w, e, t);
    }
  }

  lemma OthersStrandNobody(plan: Plan, w: World, e: Event, t: TargetId)
    requires Enabled(plan, w, e) && !Stranded(w, t) && Subject(w, e) == Some(t)
    requires !e.Stepped? && !e.SendTried? && !e.DraftDecided?
    ensures !Stranded(Apply(plan, w, e), t)
  {
    var v := Apply(plan, w, e);
    if t in v.cursors && v.cursors[t].state == AwaitingApproval {
      OthersParkNobody(plan, w, e, t);
      var m :| 0 <= m < |w.messages| && w.messages[m].target == t && Live(w.messages[m].status);
      assert v.messages[m] == w.messages[m];
    }
  }

  /** No other event parks its lead for approval; one that leaves it so leaves its rows alone. */
  lemma OthersParkNobody(plan: Plan, w: World, e: Event, t: TargetId)
    requires Enabled(plan, w, e) && Subject(w, e) == Some(t)
    requires !e.Stepped? && !e.SendTried? && !e.DraftDecided?
    requires var v := Apply(plan, w, e); t in v.cursors && v.cursors[t].state == AwaitingApproval
    ensures t in w.cursors && w.cursors[t].state == AwaitingApproval && Apply(plan, w, e).messages == w.messages
  {
  }

  /** Nothing in the funnel frees a stranded lead but its own reply or its removal. */
  lemma FreedExactlyBy(plan: Plan, warm: set<TargetId>, w: World, e: Event, t: TargetId)
    requires Inv(plan, warm, w) && Enabled(plan, w, e) && Stranded(w, t)
    ensures !Stranded(Apply(plan, w, e), t) <==> e == LeadRemoved(t) || (e.ReplyRouted? && e.t == t)
  {
    if Subject(w, e) != Some(t) {
      EventLeavesOthers(plan, w, e, t);
      SameLeadSameStranding(w, Apply(plan, w, e), t);
    } else if e.DraftDecided? {
      assert w.messages[e.m].target == t && !Live(w.messages[e.m].status);
    } else if e.SendTried? {
      assert w.messages[e.m].target == t && Live(w.messages[e.m].status);
    } else if e.InviteWithdrawn? {
      assert Apply(plan, w, e).cursors == w.cursors && Apply(plan, w, e).messages == w.messages;
    }
  }
}
