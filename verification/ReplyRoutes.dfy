/** What a routed reply leaves behind, by whichever path it was routed: the lead's stage by
the intent, its cursor, its unsent rows, and the suppression list. */
module ReplyRoutes {
  import opened Wrappers
  import opened Actions
  import opened FunnelWorld
  import opened FunnelRuns
  import opened FunnelEntries
  import opened FunnelTheorems

  /** The stage a reply of this intent leaves its lead at. */
  predicate StageAfter(intent: Intent, stage: Stage) {
    && (stage == InConversation <==> intent in {Interested, Question})
    && (stage == Lost <==> intent in {Stop, NotInterested})
    && (stage == Stage.Replied <==> intent in {Referral, Objection, NotNow, OutOfOffice})
  }

  /** An active cursor ends as replied; one that has ended stays. */
  predicate CursorAfter(c: Cursor, d: Cursor) {
    d == if c.state in {NotStarted, InProgress, AwaitingApproval, AwaitingConnection}
         then c.(state := ProgressState.Replied, nextAt := None) else c
  }

  /** Rows of the lead still draft or approved are cancelled; nobody else's row changes. */
  predicate RowAfter(m: Message, t: TargetId, n: Message) {
    n == if m.target == t && m.status in {Draft, Approved} then m.(status := Cancelled) else m
  }

  ghost predicate RowsAfter(w: World, v: World, t: TargetId) {
    |v.messages| == |w.messages| && forall m :: 0 <= m < |w.messages| ==> RowAfter(w.messages[m], t, v.messages[m])
  }

  ghost predicate CursorsAfter(w: World, v: World, t: TargetId) {
    && v.cursors.Keys == w.cursors.Keys
    && (t in w.cursors ==> CursorAfter(w.cursors[t], v.cursors[t]))
    && (forall u :: u in w.cursors && u != t ==> v.cursors[u] == w.cursors[u])
  }

  ghost predicate StagesAfter(w: World, v: World, t: TargetId, intent: Intent) {
    && v.targets.Keys == w.targets.Keys
    && (t in w.targets ==> v.targets[t] == w.targets[t].(stage := v.targets[t].stage) && StageAfter(intent, v.targets[t].stage))
    && (forall u :: u in w.targets && u != t ==> v.targets[u] == w.targets[u])
  }

  ghost predicate LeavesByReply(w: World, v: World, t: TargetId, intent: Intent) {
    && StagesAfter(w, v, t, intent) && CursorsAfter(w, v, t) && RowsAfter(w, v, t)
    && v.suppressed == w.suppressed + (if intent == Stop && t in w.targets then {w.targets[t].person} else {})
    && v.outstanding == w.outstanding && v.levels == w.levels && v.log == w.log + [Routed(t)]
  }

  lemma RoutingLeaves(w: World, t: TargetId, intent: Intent)
    ensures LeavesByReply(w, RouteReply(w, t, intent), t, intent)
  {
    assert w.suppressed + {} == w.suppressed;
    var v := RouteReply(w, t, intent);
    assert CursorsAfter(w, v, t) && RowsAfter(w, v, t) by {
      StoppingLeaves(w, t);
    }
    assert StagesAfter(w, v, t, intent) by {
      RestagingLeaves(w, t, intent);
    }
  }

  lemma StoppingLeaves(w: World, t: TargetId)
    ensures CursorsAfter(w, StopFunnel(w, t, ProgressState.Replied), t) && RowsAfter(w, StopFunnel(w, t, ProgressState.Replied), t)
  {
  }

  lemma RestagingLeaves(w: World, t: TargetId, intent: Intent)
    ensures StagesAfter(w, SetStage(w, t, StageFor(intent)), t, intent)
  {
  }

  /** The intent an event routes for lead t: the detector's, or its probe's. */
  predicate RoutesAs(w: World, e: Event, t: TargetId, intent: Intent) {
    || e == ReplyRouted(t, intent)
    || (e.Stepped? && e.t == t && e.step.probe == Answered(Some(intent)))
    || (e.SendTried? && e.m < |w.messages| && w.messages[e.m].target == t && e.send.probe == Answered(Some(intent)))
  }

  /** Whatever event routed a reply, it did so for an intent of its own, and left exactly this. */
  lemma RoutedReplyLeaves(plan: Plan, w: World, e: Event, v: World, t: TargetId)
    requires Enabled(plan, w, e) && v == Apply(plan, w, e) && AddsOne(w.log, v.log) && v.log[|w.log|] == Routed(t)
    ensures exists intent :: RoutesAs(w, e, t, intent) && LeavesByReply(w, v, t, intent)
  {
    match e
    case Stepped(u, i) => StepLeaves(plan, w, u, i, t);
    case SendTried(m, i) => SendLeaves(plan, w, m, i, t);
    case ReplyRouted(u, intent) =>
      RoutingLeaves(w, u, intent);
      assert v.log[|w.log|] == Routed(u);
    case _ => EventLogsOne(plan, w, e);
  }

  /** The clock is the only thing a step or a send changes before it routes. */
  lemma ClockAside(w: World, now: int, v: World, t: TargetId, intent: Intent)
    requires LeavesByReply(At(w, now), v, t, intent)
    ensures LeavesByReply(w, v, t, intent)
  {
  }

  lemma StepLeaves(plan: Plan, w: World, u: TargetId, i: StepInput, t: TargetId)
    requires u in w.cursors
    requires var v := DispatchStep(plan, w, u, i).w; AddsOne(w.log, v.log) && v.log[|w.log|] == Routed(t)
    ensures exists intent :: RoutesAs(w, Stepped(u, i), t, intent) && LeavesByReply(w, DispatchStep(plan, w, u, i).w, t, intent)
  {
    var now := At(w, i.now);
    var c := now.cursors[u];
    var steps := plan.Steps(c.campaign);
    if c.step < |steps| && steps[c.step].kind.Act? {
      var kind := steps[c.step].kind.action;
      if Guard(now, u, kind, i).Some? {
        GuardRoutes(now, u, kind, i);
        RoutingLeaves(now, u, i.probe.route.value);
        ClockAside(w, i.now, DispatchStep(plan, w, u, i).w, u, i.probe.route.value);
        assert DispatchStep(plan, w, u, i).w.log[|w.log|] == Routed(u);
        assert RoutesAs(w, Stepped(u, i), t, i.probe.route.value);
      } else {
        FireNeverEnds(plan, now, u, kind, i);
      }
    }
  }

  lemma GuardRoutes(w: World, t: TargetId, kind: ActionType, i: StepInput)
    requires t in w.cursors && Guard(w, t, kind, i).Some? && |Guard(w, t, kind, i).value.w.log| > |w.log|
    ensures i.probe.Answered? && i.probe.route.Some?
    ensures Guard(w, t, kind, i).value.w == RouteReply(w, t, i.probe.route.value)
  {
  }

  lemma SendLeaves(plan: Plan, w: World, m: MessageId, i: SendInput, t: TargetId)
    requires m < |w.messages|
    requires var v := SendApproved(plan, w, m, i); AddsOne(w.log, v.log) && v.log[|w.log|] == Routed(t)
    ensures exists intent :: RoutesAs(w, SendTried(m, i), t, intent) && LeavesByReply(w, SendApproved(plan, w, m, i), t, intent)
  {
    var now := At(w, i.now);
    var msg := now.messages[m];
    if CountFailed(now.log, msg.target, msg.kind, msg.createdAt) < MAX_SEND_ATTEMPTS {
      if SendGuard(now, m, i).Some? {
        SendGuardRoutes(now, m, i);
        RoutingLeaves(now, msg.target, i.probe.route.value);
        ClockAside(w, i.now, SendApproved(plan, w, m, i), msg.target, i.probe.route.value);
        assert SendApproved(plan, w, m, i).log[|w.log|] == Routed(msg.target);
        assert RoutesAs(w, SendTried(m, i), t, i.probe.route.value);
      } else {
        SendIsCall(plan, now, m, i);
        ExecLogsOne(now, msg.target, msg.account, msg.kind, i.exec, ByApproval(m, msg.body));
      }
    }
  }

  lemma SendGuardRoutes(w: World, m: MessageId, i: SendInput)
    requires m < |w.messages| && SendGuard(w, m, i).Some? && |SendGuard(w, m, i).value.log| > |w.log|
    ensures i.probe.Answered? && i.probe.route.Some?
    ensures SendGuard(w, m, i).value == RouteReply(w, w.messages[m].target, i.probe.route.value)
  {
  }
}
