/** The combinations of writes the funnel's writers are made of, each shown to
keep the invariant and to move the tables forward only. */
module FunnelMoves {
  import opened Wrappers
  import opened Actions
  import opened FunnelWorld
  import opened FunnelLaws

  /** Good again, and further on. */
  ghost predicate Kept(plan: Plan, warm: set<TargetId>, w: World, v: World) {
    Inv(plan, warm, v) && Forward(plan, w, v)
  }

  lemma KeptTwice(plan: Plan, warm: set<TargetId>, u: World, v: World, w: World)
    requires Kept(plan, warm, u, v) && Kept(plan, warm, v, w)
    ensures Kept(plan, warm, u, w)
  {
    ForwardTransitive(plan, u, v, w);
  }

  // ----- writes no lead sees

  lemma ClockMove(plan: Plan, warm: set<TargetId>, w: World, now: int)
    requires Inv(plan, warm, w) && w.clock <= now
    ensures Kept(plan, warm, w, At(w, now))
  {
    LogKept(plan, warm, w, At(w, now));
  }

  /** The live counter, the suppression list and the autonomy dial are outside the invariant. */
  lemma SideMove(plan: Plan, warm: set<TargetId>, w: World, v: World)
    requires Inv(plan, warm, w)
    requires v == w.(outstanding := v.outstanding, suppressed := v.suppressed, levels := v.levels)
    ensures Kept(plan, warm, w, v)
  {
    LogKept(plan, warm, w, v);
  }

  // ----- facts about one lead

  /** A live draft pins its lead's cursor. */
  lemma LiveMeansAwaiting(plan: Plan, w: World, t: TargetId)
    requires DraftsParked(plan, w) && t in w.cursors && w.cursors[t].state != AwaitingApproval
    ensures forall m :: 0 <= m < |w.messages| && w.messages[m].target == t ==> !Live(w.messages[m].status)
  {
    assert forall m :: 0 <= m < |w.messages| && Live(w.messages[m].status) ==> LiveIsParked(plan, w, m);
  }

  /** Handled steps lie behind a cursor that is not yet done with its step. */
  lemma HandledLiesBehind(warm: set<TargetId>, w: World, t: TargetId, i: nat)
    requires LogOk(warm, w) && t in w.cursors && Ready(w.cursors[t].state)
    requires i < |w.log| && Handles(w.log[i]) && TargetOf(w.log[i]) == t
    ensures HandledStep(w.log[i]) < w.cursors[t].step
  {
    assert EntryOk(warm, w, i);
  }

  /** A lead still in the funnel has neither replied nor been removed. */
  lemma ActiveNeverEnded(warm: set<TargetId>, w: World, t: TargetId)
    requires LogOk(warm, w) && t in w.cursors && Active(w.cursors[t].state)
    ensures !EndedBefore(w.log, |w.log|, t)
  {
    forall j | 0 <= j < |w.log| ensures !Ends(w.log[j], t) {
      assert EntryOk(warm, w, j);
    }
  }

  lemma EndedSlice(log: seq<Entry>, e: Entry, t: TargetId)
    requires !EndedBefore(log, |log|, t)
    ensures !EndedBefore(log + [e], |log|, t)
  {
    assert forall j :: 0 <= j < |log| ==> (log + [e])[j] == log[j];
  }

  // ----- a cursor moves, nothing is logged

  /** Lead t's cursor moves forward, maybe with a new stage, and no draft is live. */
  lemma CursorMove(plan: Plan, warm: set<TargetId>, w: World, t: TargetId, d: Cursor, stage: Stage)
    requires Inv(plan, warm, w) && t in w.cursors && w.cursors[t].state != AwaitingApproval
    requires CursorForward(plan, w.cursors[t], d) && d.state != AwaitingApproval
    requires d.state == AwaitingConnection ==> stage == Invited
    requires stage == Connected ==> w.targets[t].stage == Connected
    ensures Kept(plan, warm, w, SetCursor(SetStage(w, t, stage), t, d))
  {
    LiveMeansAwaiting(plan, w, t);
    QuietWrite(plan, warm, w, SetCursor(SetStage(w, t, stage), t, d), t);
  }

  /** A stage changes once the lead has left the funnel. */
  lemma StageMove(plan: Plan, warm: set<TargetId>, w: World, t: TargetId, stage: Stage)
    requires Inv(plan, warm, w) && t in w.cursors && !Active(w.cursors[t].state)
    requires stage != Connected
    ensures Kept(plan, warm, w, SetStage(w, t, stage))
  {
    var v := SetStage(w, t, stage);
    LiveMeansAwaiting(plan, w, t);
    QuietWrite(plan, warm, w, v, t);
  }

  /** Leaving the funnel: the cursor goes terminal and every undelivered draft is cancelled. */
  lemma StopMove(plan: Plan, warm: set<TargetId>, w: World, t: TargetId, terminal: ProgressState)
    requires Inv(plan, warm, w) && t in w.cursors && !Active(terminal)
    ensures Kept(plan, warm, w, StopFunnel(w, t, terminal))
    ensures !Active(StopFunnel(w, t, terminal).cursors[t].state)
  {
    var v := StopFunnel(w, t, terminal);
    assert OnlyLead(plan, w, v, t) by {
      StopIsOnlyLead(plan, w, t, terminal);
    }
    assert LeadOk(plan, warm, v, t) by {
      StoppedIsOk(plan, warm, w, t, terminal);
    }
    QuietWrite(plan, warm, w, v, t);
  }

  lemma StopIsOnlyLead(plan: Plan, w: World, t: TargetId, terminal: ProgressState)
    requires WellFormed(w) && t in w.cursors && !Active(terminal)
    ensures OnlyLead(plan, w, StopFunnel(w, t, terminal), t)
  {
  }

  lemma StoppedIsOk(plan: Plan, warm: set<TargetId>, w: World, t: TargetId, terminal: ProgressState)
    requires Inv(plan, warm, w) && t in w.cursors && !Active(terminal)
    ensures LeadOk(plan, warm, StopFunnel(w, t, terminal), t)
  {
    var v := StopFunnel(w, t, terminal);
    assert forall m :: 0 <= m < |v.messages| && v.messages[m].target == t ==> !Live(v.messages[m].status);
  }

  /** Stopping a target that was never enrolled touches nothing. */
  lemma StopNobody(plan: Plan, warm: set<TargetId>, w: World, t: TargetId, terminal: ProgressState)
    requires Inv(plan, warm, w) && t !in w.cursors
    ensures StopFunnel(w, t, terminal) == w
  {
    assert CancelFor(w.messages, t) == w.messages;
  }

  /** An approved row is dropped. */
  lemma DropMove(plan: Plan, warm: set<TargetId>, w: World, m: MessageId)
    requires Inv(plan, warm, w) && m < |w.messages| && w.messages[m].status == Approved
    ensures Kept(plan, warm, w, SetStatus(w, m, Cancelled))
  {
    var v, t := SetStatus(w, m, Cancelled), w.messages[m].target;
    assert forall n :: 0 <= n < |w.messages| && Live(w.messages[n].status) ==> LiveIsParked(plan, w, n);
    forall n | 0 <= n < |v.messages| && v.messages[n].target == t && Live(v.messages[n].status)
      ensures LiveIsParked(plan, v, n)
    {
      assert LiveIsParked(plan, w, n);
    }
    QuietWrite(plan, warm, w, v, t);
  }

  /** With its only draft gone, a parked cursor may end or move on. */
  lemma ParkedCursorMove(plan: Plan, warm: set<TargetId>, w: World, t: TargetId, d: Cursor, stage: Stage)
    requires Inv(plan, warm, w) && t in w.cursors && w.cursors[t].state == AwaitingApproval
    requires forall m :: 0 <= m < |w.messages| && w.messages[m].target == t ==> !Live(w.messages[m].status)
    requires CursorForward(plan, w.cursors[t], d) && d.state != AwaitingApproval
    requires d.state == AwaitingConnection ==> stage == Invited
    requires stage == Connected ==> w.targets[t].stage == Connected
    ensures Kept(plan, warm, w, SetCursor(SetStage(w, t, stage), t, d))
  {
    QuietWrite(plan, warm, w, SetCursor(SetStage(w, t, stage), t, d), t);
  }

  // ----- one entry is logged

  /** The end of a lead's outreach is recorded once the cursor is terminal. */
  lemma EndNote(plan: Plan, warm: set<TargetId>, w: World, t: TargetId)
    requires Inv(plan, warm, w) && t in w.cursors && !Active(w.cursors[t].state)
    ensures Kept(plan, warm, w, Note(w, Routed(t)))
    ensures w.targets[t].removed ==> Kept(plan, warm, w, Note(w, Removed(t)))
  {
    LiveMeansAwaiting(plan, w, t);
    StillOk(plan, warm, w, Routed(t), t);
    LoggedWrite(plan, warm, w, Note(w, Routed(t)), t, Routed(t));
    if w.targets[t].removed {
      StillOk(plan, warm, w, Removed(t), t);
      LoggedWrite(plan, warm, w, Note(w, Removed(t)), t, Removed(t));
    }
  }

  /** Logging alone leaves a lead's rows in order. */
  lemma StillOk(plan: Plan, warm: set<TargetId>, w: World, e: Entry, t: TargetId)
    requires Inv(plan, warm, w) && t in w.cursors
    ensures LeadOk(plan, warm, Note(w, e), t)
  {
    var v := Note(w, e);
    forall m | 0 <= m < |v.messages| && v.messages[m].target == t && Live(v.messages[m].status)
      ensures LiveIsParked(plan, v, m)
    {
      assert LiveIsParked(plan, w, m);
    }
    forall m | 0 <= m < |v.messages| && v.messages[m].target == t && v.messages[m].status == Approved
      ensures SignedBefore(v.log, |v.log|, m, v.messages[m].body)
    {
      SignedKept(w.log, e, m, w.messages[m].body);
    }
    if w.targets[t].stage == Connected && t !in warm {
      AcceptedKept(w.log, e, t);
    }
  }

  /** Removal of somebody who was never enrolled. */
  lemma RemovedStranger(plan: Plan, warm: set<TargetId>, w: World, t: TargetId)
    requires Inv(plan, warm, w) && t in w.targets && t !in w.cursors && w.targets[t].removed
    ensures Kept(plan, warm, w, Note(w, Removed(t)))
  {
    var v := Note(w, Removed(t));
    LogExtended(plan, warm, w, v, Removed(t));
    forall m | 0 <= m < |v.messages| && v.messages[m].status == Approved
      ensures SignedBefore(v.log, |v.log|, m, v.messages[m].body)
    {
      SignedKept(w.log, Removed(t), m, w.messages[m].body);
    }
    forall u | u in v.targets && v.targets[u].stage == Connected
      ensures u in warm || AcceptedBefore(v.log, |v.log|, u)
    {
      if u !in warm {
        AcceptedKept(w.log, Removed(t), u);
      }
    }
    forall m | 0 <= m < |v.messages| && Live(v.messages[m].status) ensures LiveIsParked(plan, v, m) {
      assert LiveIsParked(plan, w, m);
    }
  }

  lemma RemovedFlag(plan: Plan, warm: set<TargetId>, w: World, t: TargetId)
    requires Inv(plan, warm, w) && t in w.targets
    ensures Kept(plan, warm, w, w.(targets := w.targets[t := w.targets[t].(removed := true)]))
  {
    var v := w.(targets := w.targets[t := w.targets[t].(removed := true)]);
    LogKept(plan, warm, w, v);
    forall m | 0 <= m < |v.messages| && Live(v.messages[m].status) ensures LiveIsParked(plan, v, m) {
      assert LiveIsParked(plan, w, m);
    }
  }

  /** An entry that handles the cursor's present step for the first time. */
  lemma FirstAtStep(warm: set<TargetId>, w: World, t: TargetId, e: Entry)
    requires LogOk(warm, w) && t in w.cursors && Ready(w.cursors[t].state)
    requires Handles(e) && TargetOf(e) == t && HandledStep(e) == w.cursors[t].step
    requires e.Drafted? ==> e.msg == |w.messages|
    ensures forall i :: 0 <= i < |w.log| ==> Distinct(w.log[i], e)
  {
    forall i | 0 <= i < |w.log| ensures Distinct(w.log[i], e) {
      assert EntryOk(warm, w, i);
      if Handles(w.log[i]) && TargetOf(w.log[i]) == t {
        HandledLiesBehind(warm, w, t, i);
      }
    }
  }

  /** The step of a lead still in the funnel may be worked on. */
  lemma StepIsTimely(plan: Plan, warm: set<TargetId>, w: World, t: TargetId, e: Entry)
    requires Inv(plan, warm, w) && t in w.cursors && Active(w.cursors[t].state)
    ensures !EndedBefore(w.log + [e], |w.log|, t)
    ensures w.targets[t].stage == Connected ==>
              t in warm || (AcceptedBefore(w.log + [e], |w.log|, t) && AcceptedBefore(w.log + [e], |w.log| + 1, t))
  {
    ActiveNeverEnded(warm, w, t);
    EndedSlice(w.log, e, t);
    if w.targets[t].stage == Connected && t !in warm {
      AcceptedKept(w.log, e, t);
    }
  }

  /** A draft is queued: the step is handled and the cursor parks behind it. */
  lemma QueueMove(plan: Plan, warm: set<TargetId>, w: World, t: TargetId, kind: ActionType, body: Body)
    requires Inv(plan, warm, w) && t in w.cursors && w.cursors[t].state == InProgress
    requires AsksFor(plan, w.cursors[t], kind)
    requires kind == ActionType.Message ==> w.targets[t].stage == Connected
    ensures Kept(plan, warm, w, QueueDraft(w, t, kind, body))
  {
    var v := QueueDraft(w, t, kind, body);
    var e := Drafted(t, w.cursors[t].step, kind, |w.messages|);
    StepIsTimely(plan, warm, w, t, e);
    FirstAtStep(warm, w, t, e);
    assert EntryOk(warm, v, |w.log|);
    QueuedLeadOk(plan, warm, w, t, kind, body);
    LoggedWrite(plan, warm, w, v, t, e);
  }

  lemma QueuedLeadOk(plan: Plan, warm: set<TargetId>, w: World, t: TargetId, kind: ActionType, body: Body)
    requires Inv(plan, warm, w) && t in w.cursors && w.cursors[t].state == InProgress
    requires AsksFor(plan, w.cursors[t], kind)
    requires kind == ActionType.Message ==> w.targets[t].stage == Connected
    ensures LeadOk(plan, warm, QueueDraft(w, t, kind, body), t)
  {
    var v := QueueDraft(w, t, kind, body);
    var e := Drafted(t, w.cursors[t].step, kind, |w.messages|);
    LiveMeansAwaiting(plan, w, t);
    StepIsTimely(plan, warm, w, t, e);
    assert e == v.log[|w.log|];
    assert LiveIsParked(plan, v, |w.messages|);
  }

  /** A step is driven directly and its cursor resolved. */
  lemma DirectMove(plan: Plan, warm: set<TargetId>, w: World, t: TargetId, kind: ActionType, result: ActionResult,
                   level: AutonomyLevel, d: Cursor, stage: Stage)
    requires Inv(plan, warm, w) && t in w.cursors && w.cursors[t].state == InProgress
    requires MayExecuteDirectly(level, kind) && kind != ActionType.WithdrawInvite
    requires kind == ActionType.Message ==> w.targets[t].stage == Connected
    requires CursorForward(plan, w.cursors[t], d) && Past(d, w.cursors[t].step) && d.state != AwaitingApproval
    requires d.state == AwaitingConnection ==> stage == Invited
    requires stage == Connected ==> w.targets[t].stage == Connected
    ensures var e := Drove(w.clock, t, w.cursors[t].account, kind, result, Direct(level, w.cursors[t].step));
            Kept(plan, warm, w, SetCursor(SetStage(Note(w, e), t, stage), t, d))
  {
    var e := Drove(w.clock, t, w.cursors[t].account, kind, result, Direct(level, w.cursors[t].step));
    var v := SetCursor(SetStage(Note(w, e), t, stage), t, d);
    LiveMeansAwaiting(plan, w, t);
    StepIsTimely(plan, warm, w, t, e);
    FirstAtStep(warm, w, t, e);
    LoggedWrite(plan, warm, w, v, t, e);
  }

  /** An approved row was driven and did not land. */
  lemma SendMissed(plan: Plan, warm: set<TargetId>, w: World, m: MessageId, result: ActionResult)
    requires Inv(plan, warm, w) && m < |w.messages| && w.messages[m].status == Approved
    requires result != Success
    ensures var msg := w.messages[m];
            Kept(plan, warm, w, Note(w, Drove(w.clock, msg.target, msg.account, msg.kind, result, ByApproval(m, msg.body))))
  {
    var msg := w.messages[m];
    var e := Drove(w.clock, msg.target, msg.account, msg.kind, result, ByApproval(m, msg.body));
    StillOk(plan, warm, w, e, msg.target);
    SendIsTimely(plan, warm, w, m, e);
    SignedKept(w.log, e, m, msg.body);
    LoggedWrite(plan, warm, w, Note(w, e), msg.target, e);
  }

  /** An approved row is backed by its queued draft, so what justified the draft justifies the send. */
  lemma SendIsTimely(plan: Plan, warm: set<TargetId>, w: World, m: MessageId, e: Entry)
    requires Inv(plan, warm, w) && m < |w.messages| && w.messages[m].status == Approved
    ensures !EndedBefore(w.log + [e], |w.log|, w.messages[m].target)
    ensures w.messages[m].kind == ActionType.Message ==>
              w.messages[m].target in warm || AcceptedBefore(w.log + [e], |w.log|, w.messages[m].target)
  {
    var t := w.messages[m].target;
    assert LiveIsParked(plan, w, m);
    ActiveNeverEnded(warm, w, t);
    EndedSlice(w.log, e, t);
    var i :| 0 <= i < |w.log| && w.log[i] == Drafted(t, w.cursors[t].step, w.messages[m].kind, m);
    assert EntryOk(warm, w, i);
    if w.messages[m].kind == ActionType.Message && t !in warm {
      AcceptedKept(w.log, e, t);
    }
  }

  /** An approved row was delivered: it is spent, and its cursor resolved. */
  lemma SendLanded(plan: Plan, warm: set<TargetId>, w: World, m: MessageId, d: Cursor, stage: Stage)
    requires Inv(plan, warm, w) && m < |w.messages| && w.messages[m].status == Approved
    requires w.messages[m].target in w.cursors
    requires CursorForward(plan, w.cursors[w.messages[m].target], d) && d.state != AwaitingApproval
    requires d.state == AwaitingConnection ==> stage == Invited
    requires stage == Connected ==> w.targets[w.messages[m].target].stage == Connected
    ensures var msg := w.messages[m];
            var e := Drove(w.clock, msg.target, msg.account, msg.kind, Success, ByApproval(m, msg.body));
            Kept(plan, warm, w, SetCursor(SetStage(SetStatus(Note(w, e), m, Sent), msg.target, stage), msg.target, d))
  {
    var msg := w.messages[m];
    var t := msg.target;
    var e := Drove(w.clock, t, msg.account, msg.kind, Success, ByApproval(m, msg.body));
    var v := SetCursor(SetStage(SetStatus(Note(w, e), m, Sent), t, stage), t, d);
    assert EntryOk(warm, v, |w.log|) by {
      SendIsTimely(plan, warm, w, m, e);
      SignedKept(w.log, e, m, msg.body);
    }
    assert forall i :: 0 <= i < |w.log| ==> Distinct(w.log[i], e) by {
      FirstDelivery(warm, w, m, e);
    }
    assert LeadOk(plan, warm, v, t) by {
      LandedLeadOk(plan, warm, w, m, d, stage, e);
    }
    LoggedWrite(plan, warm, w, v, t, e);
  }

  /** A row still approved was never delivered. */
  lemma FirstDelivery(warm: set<TargetId>, w: World, m: MessageId, e: Entry)
    requires LogOk(warm, w) && m < |w.messages| && w.messages[m].status == Approved
    requires e.Drove? && e.via.ByApproval? && e.via.msg == m
    ensures forall i :: 0 <= i < |w.log| ==> Distinct(w.log[i], e)
  {
    forall i | 0 <= i < |w.log| ensures Distinct(w.log[i], e) {
      assert EntryOk(warm, w, i);
    }
  }

  lemma LandedLeadOk(plan: Plan, warm: set<TargetId>, w: World, m: MessageId, d: Cursor, stage: Stage, e: Entry)
    requires Inv(plan, warm, w) && m < |w.messages| && w.messages[m].status == Approved
    requires w.messages[m].target in w.cursors && d.state != AwaitingApproval
    requires d.state == AwaitingConnection ==> stage == Invited
    requires stage == Connected ==> w.targets[w.messages[m].target].stage == Connected
    ensures LeadOk(plan, warm, SetCursor(SetStage(SetStatus(Note(w, e), m, Sent), w.messages[m].target, stage), w.messages[m].target, d),
                   w.messages[m].target)
  {
    var t := w.messages[m].target;
    var v := SetCursor(SetStage(SetStatus(Note(w, e), m, Sent), t, stage), t, d);
    OnlyDraftGone(plan, w, v, m);
    if w.targets[t].stage == Connected && t !in warm {
      AcceptedKept(w.log, e, t);
    }
  }

  /** A lead's one live row is no longer live. */
  lemma OnlyDraftGone(plan: Plan, w: World, v: World, m: MessageId)
    requires DraftsParked(plan, w) && m < |w.messages| && Live(w.messages[m].status)
    requires |v.messages| == |w.messages| && !Live(v.messages[m].status)
    requires forall n :: 0 <= n < |w.messages| && n != m ==> v.messages[n] == w.messages[n]
    ensures forall n :: 0 <= n < |v.messages| && n != m && v.messages[n].target == w.messages[m].target ==> !Live(v.messages[n].status)
  {
  }

  /** A row dropped and its cursor failed. */
  lemma DropAndFail(plan: Plan, warm: set<TargetId>, w: World, m: MessageId)
    requires Inv(plan, warm, w) && m < |w.messages| && w.messages[m].status == Approved
    ensures w.messages[m].target in w.cursors
    ensures Kept(plan, warm, w, FailCursor(SetStatus(w, m, Cancelled), w.messages[m].target))
  {
    var t := w.messages[m].target;
    assert LiveIsParked(plan, w, m);
    var dropped := SetStatus(w, m, Cancelled);
    DropMove(plan, warm, w, m);
    OnlyDraftGone(plan, w, dropped, m);
    FailParked(plan, warm, dropped, t);
    KeptTwice(plan, warm, w, dropped, FailCursor(dropped, t));
  }

  lemma FailParked(plan: Plan, warm: set<TargetId>, w: World, t: TargetId)
    requires Inv(plan, warm, w) && t in w.cursors && w.cursors[t].state == AwaitingApproval
    requires forall m :: 0 <= m < |w.messages| && w.messages[m].target == t ==> !Live(w.messages[m].status)
    ensures Kept(plan, warm, w, FailCursor(w, t))
  {
    var stage := w.targets[t].stage;
    ParkedCursorMove(plan, warm, w, t, w.cursors[t].(state := ProgressState.Failed, nextAt := None), stage);
    assert SetStage(w, t, stage) == w;
  }

  /** An approved row is abandoned: dropped, its cursor failed, and noted. */
  lemma AbandonMove(plan: Plan, warm: set<TargetId>, w: World, m: MessageId)
    requires Inv(plan, warm, w) && m < |w.messages| && w.messages[m].status == Approved
    ensures Kept(plan, warm, w, GiveUp(w, m))
  {
    var msg := w.messages[m];
    DropAndFail(plan, warm, w, m);
    var failed := FailCursor(SetStatus(w, m, Cancelled), msg.target);
    var e := Abandoned(w.clock, m, msg.target, msg.account, msg.kind);
    StillOk(plan, warm, failed, e, msg.target);
    LoggedWrite(plan, warm, failed, Note(failed, e), msg.target, e);
    KeptTwice(plan, warm, w, failed, Note(failed, e));
  }

  /** An invite is accepted. */
  lemma AcceptMove(plan: Plan, warm: set<TargetId>, w: World, t: TargetId, d: Cursor)
    requires Inv(plan, warm, w) && t in w.cursors && w.cursors[t].state == AwaitingConnection
    requires CursorForward(plan, w.cursors[t], d) && d.state != AwaitingApproval && d.state != AwaitingConnection
    ensures Kept(plan, warm, w, Note(SetCursor(SetStage(w, t, Connected), t, d), Accepted(t)))
  {
    var v := Note(SetCursor(SetStage(w, t, Connected), t, d), Accepted(t));
    LiveMeansAwaiting(plan, w, t);
    assert v.log[|w.log|] == Accepted(t);
    LoggedWrite(plan, warm, w, v, t, Accepted(t));
  }

  /** A draft is decided. */
  lemma DecideMove(plan: Plan, warm: set<TargetId>, w: World, m: MessageId, d: ApprovalDecision, newBody: Body)
    requires Inv(plan, warm, w) && m < |w.messages| && w.messages[m].status == Draft
    ensures Kept(plan, warm, w, DecideDraft(w, m, d, newBody, false))
  {
    var v := DecideDraft(w, m, d, newBody, false);
    var t := w.messages[m].target;
    var e := Decided(m, d, v.messages[m].body);
    assert v.log == w.log + [e] && v.log[|w.log|] == e;
    DecidedLeadOk(plan, warm, w, v, m, e);
    forall i | 0 <= i < |w.log| ensures Distinct(w.log[i], e) {
      assert EntryOk(warm, w, i);
    }
    LoggedWrite(plan, warm, w, v, t, e);
  }

  lemma DecidedLeadOk(plan: Plan, warm: set<TargetId>, w: World, v: World, m: MessageId, e: Entry)
    requires Inv(plan, warm, w) && m < |w.messages| && w.messages[m].status == Draft
    requires e.Decided? && e.msg == m && v == w.(messages := v.messages, log := w.log + [e])
    requires |v.messages| == |w.messages| && forall n :: 0 <= n < |w.messages| && n != m ==> v.messages[n] == w.messages[n]
    requires v.messages[m] == w.messages[m].(body := v.messages[m].body, status := v.messages[m].status)
    requires v.messages[m].status == Approved ==> Consent(e.decision) && e.body == v.messages[m].body
    ensures LeadOk(plan, warm, v, w.messages[m].target)
  {
    var t := w.messages[m].target;
    forall n | 0 <= n < |v.messages| && v.messages[n].target == t && Live(v.messages[n].status)
      ensures LiveIsParked(plan, v, n)
    {
      assert LiveIsParked(plan, w, n);
    }
    assert LiveIsParked(plan, w, m);
    forall n | 0 <= n < |v.messages| && v.messages[n].target == t && v.messages[n].status == Approved
      ensures SignedBefore(v.log, |v.log|, n, v.messages[n].body)
    {
      assert n == m && v.log[|w.log|].Decided?;
    }
    if w.targets[t].stage == Connected && t !in warm {
      AcceptedKept(w.log, e, t);
    }
  }

  /** A withdrawal asked for directly was driven. */
  lemma OperatorMove(plan: Plan, warm: set<TargetId>, w: World, t: TargetId, a: AccountId, result: ActionResult, level: AutonomyLevel)
    requires Inv(plan, warm, w) && t in w.cursors && MayExecuteDirectly(level, ActionType.WithdrawInvite)
    ensures Kept(plan, warm, w, Note(w, Drove(w.clock, t, a, ActionType.WithdrawInvite, result, Operator(level))))
  {
    var e := Drove(w.clock, t, a, ActionType.WithdrawInvite, result, Operator(level));
    StillOk(plan, warm, w, e, t);
    LoggedWrite(plan, warm, w, Note(w, e), t, e);
  }

  /** A lead enters the funnel. */
  lemma EnrollMove(plan: Plan, warm: set<TargetId>, w: World, t: TargetId, c: Cursor)
    requires Inv(plan, warm, w) && t in w.targets && !w.targets[t].removed && t !in w.cursors
    requires c.state == InProgress && c.campaign == w.targets[t].campaign
    ensures Kept(plan, warm, w, SetCursor(w, t, c))
  {
    var v := SetCursor(w, t, c);
    LogKept(plan, warm, w, v);
    forall m | 0 <= m < |v.messages| && Live(v.messages[m].status) ensures LiveIsParked(plan, v, m) {
      assert LiveIsParked(plan, w, m);
    }
  }
}
