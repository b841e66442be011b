/** What one event may write to the log: at most one entry, and which. */
module FunnelEntries {
  import opened Actions
  import opened FunnelWorld
  import opened FunnelRuns

  /** A call on a lead's cursor's own account, made now. */
  predicate CallOf(w: World, v: World, n: Entry, t: TargetId) {
    n.Drove? && n.target == t && n.at == v.clock && t in w.cursors && n.account == w.cursors[t].account
  }

  /** What a dispatch step may log. */
  predicate FitsStep(w: World, v: World, t: TargetId, n: Entry) {
    || (CallOf(w, v, n, t) && n.via.Direct? && n.via.level == LevelOf(w, w.cursors[t].campaign)
        && n.via.step == w.cursors[t].step && v.messages == w.messages)
    || (n.Drafted? && n.target == t && n.msg == |w.messages| && |v.messages| == |w.messages| + 1
        && t in w.cursors && n.step == w.cursors[t].step
        && v.messages[n.msg] == Message.Message(t, w.cursors[t].account, n.kind, v.messages[n.msg].body, Draft, v.clock)
        && v.messages[..n.msg] == w.messages)
    || (n == Routed(t) && |v.messages| == |w.messages|)
  }

  /** What an approved send may log. */
  predicate FitsSend(w: World, v: World, m: MessageId, n: Entry)
    requires m < |w.messages|
  {
    var msg := w.messages[m];
    || (n.Drove? && n.at == v.clock && n.target == msg.target && n.account == msg.account && n.kind == msg.kind
        && n.via == ByApproval(m, msg.body) && CountFailed(w.log, msg.target, msg.kind, msg.createdAt) < MAX_SEND_ATTEMPTS)
    || (n == Abandoned(v.clock, m, msg.target, msg.account, msg.kind)
        && CountFailed(w.log, msg.target, msg.kind, msg.createdAt) >= MAX_SEND_ATTEMPTS
        && !LaneIsSystemicallyFailing(w.log, msg.account, msg.kind, v.clock))
    || n == Routed(msg.target)
  }

  ghost predicate Fits(w: World, v: World, e: Event, n: Entry) {
    match e
    case Stepped(t, _) => FitsStep(w, v, t, n)
    case SendTried(m, _) => m < |w.messages| && FitsSend(w, v, m, n)
    case InviteAccepted(t, _, _) => n == Accepted(t)
    case ReplyRouted(t, _) => n == Routed(t)
    case DraftDecided(m, d, _, _) => n.Decided? && n.msg == m && n.decision == d
    case InviteWithdrawn(t, _, _) =>
      CallOf(w, v, n, t) && n.via == Operator(LevelOf(w, w.cursors[t].campaign)) && n.kind == ActionType.WithdrawInvite
    case LeadRemoved(t) => n == Removed(t)
    case InviteSwept(_) | LeadEnrolled(_, _, _, _) | AutonomySet(_, _) | Restarted => false
  }

  /** One log is the other with a single new entry. */
  predicate AddsOne(before: seq<Entry>, after: seq<Entry>) {
    |after| == |before| + 1 && after[..|before|] == before
  }

  /** Nothing logged and no row added, or one fitting entry. */
  ghost predicate LogsOne(w: World, v: World, e: Event) {
    || (v.log == w.log && |v.messages| == |w.messages|)
    || (AddsOne(w.log, v.log) && Fits(w, v, e, v.log[|w.log|]) && (!e.Stepped? ==> |v.messages| == |w.messages|))
  }

  /** An executor call logs at most the call. */
  lemma ExecLogsOne(w: World, t: TargetId, a: AccountId, kind: ActionType, x: Exec, via: Via)
    ensures var v := ExecEffect(w, t, a, kind, x, via);
            && v.messages == w.messages && v.clock == w.clock && v.cursors == w.cursors && v.targets == w.targets
            && (v.log == w.log || (x.Ran? && v.log == w.log + [Drove(w.clock, t, a, kind, x.result, via)])
                || (x.DriveThrew? && v.log == w.log + [Drove(w.clock, t, a, kind, ActionResult.Failed, via)]))
  {
  }

  lemma GuardLogsOne(w: World, t: TargetId, kind: ActionType, i: StepInput)
    requires t in w.cursors && Guard(w, t, kind, i).Some?
    ensures var v := Guard(w, t, kind, i).value.w;
            |v.messages| == |w.messages| && (v.log == w.log || v.log == w.log + [Routed(t)])
  {
  }

  /** Whatever a fired step does to the cursor and the stage, it logs what its call logged. */
  lemma FireIsCallOrDraft(plan: Plan, w: World, t: TargetId, kind: ActionType, i: StepInput)
    requires t in w.cursors
    ensures var c := w.cursors[t];
            var level := LevelOf(w, c.campaign);
            var v := Fire(plan, w, t, kind, i).w;
            || v == w || (!MayExecuteDirectly(level, kind) && v == QueueDraft(w, t, kind, i.draft))
            || (var ran := ExecEffect(w, t, c.account, kind, i.exec, Direct(level, c.step));
                MayExecuteDirectly(level, kind) && v.log == ran.log && v.messages == ran.messages && v.clock == ran.clock)
  {
  }

  lemma FireLogsOne(plan: Plan, w: World, t: TargetId, kind: ActionType, i: StepInput)
    requires t in w.cursors
    ensures var v := Fire(plan, w, t, kind, i).w;
            || (v.log == w.log && v.messages == w.messages)
            || (AddsOne(w.log, v.log) && FitsStep(w, v, t, v.log[|w.log|]))
  {
    var c := w.cursors[t];
    FireIsCallOrDraft(plan, w, t, kind, i);
    ExecLogsOne(w, t, c.account, kind, i.exec, Direct(LevelOf(w, c.campaign), c.step));
  }

  lemma StepLogsOne(plan: Plan, w: World, t: TargetId, i: StepInput, e: Event)
    requires t in w.cursors && e == Stepped(t, i)
    ensures LogsOne(w, DispatchStep(plan, w, t, i).w, e)
  {
    var now := At(w, i.now);
    var c := now.cursors[t];
    var steps := plan.Steps(c.campaign);
    if c.step < |steps| && steps[c.step].kind != Delay {
      var kind := steps[c.step].kind.action;
      if Guard(now, t, kind, i).Some? {
        GuardLogsOne(now, t, kind, i);
      } else {
        FireLogsOne(plan, now, t, kind, i);
      }
    }
  }

  lemma SendGuardLogsOne(w: World, m: MessageId, i: SendInput)
    requires m < |w.messages| && SendGuard(w, m, i).Some?
    ensures var v := SendGuard(w, m, i).value;
            |v.messages| == |w.messages| && (v.log == w.log || v.log == w.log + [Routed(w.messages[m].target)])
  {
  }

  /** Whatever a send does to the row, the cursor and the stage, it logs what its call logged. */
  lemma SendIsCall(plan: Plan, w: World, m: MessageId, i: SendInput)
    requires m < |w.messages|
    ensures var v := SendResult(plan, w, m, i);
            var msg := w.messages[m];
            var ran := ExecEffect(w, msg.target, msg.account, msg.kind, i.exec, ByApproval(m, msg.body));
            v.log == ran.log && |v.messages| == |w.messages| && v.clock == w.clock
  {
    var msg := w.messages[m];
    ExecLogsOne(w, msg.target, msg.account, msg.kind, i.exec, ByApproval(m, msg.body));
    if i.exec == Ran(Success) {
      if msg.kind == ActionType.Connect {
      } else {
      }
    } else if i.exec == Ran(ActionResult.Skipped) {
    }
  }

  lemma SendLogsOne(plan: Plan, w: World, m: MessageId, i: SendInput, e: Event)
    requires m < |w.messages| && e == SendTried(m, i)
    ensures LogsOne(w, SendApproved(plan, w, m, i), e)
  {
    var now := At(w, i.now);
    var msg := now.messages[m];
    if CountFailed(now.log, msg.target, msg.kind, msg.createdAt) < MAX_SEND_ATTEMPTS {
      if SendGuard(now, m, i).Some? {
        SendGuardLogsOne(now, m, i);
      } else {
        SendIsCall(plan, now, m, i);
        ExecLogsOne(now, msg.target, msg.account, msg.kind, i.exec, ByApproval(m, msg.body));
      }
    }
  }

  lemma WithdrawLogsOne(plan: Plan, w: World, t: TargetId, restAllows: bool, x: Exec, e: Event)
    requires t in w.cursors && e == InviteWithdrawn(t, restAllows, x)
    ensures LogsOne(w, WithdrawInviteNow(plan, w, t, restAllows, x), e)
  {
  }

  /** One event logs at most one entry, of the kind the event is about. */
  lemma EventLogsOne(plan: Plan, w: World, e: Event)
    requires Enabled(plan, w, e)
    ensures LogsOne(w, Apply(plan, w, e), e)
  {
    match e
    case Stepped(t, i) => StepLogsOne(plan, w, t, i, e);
    case SendTried(m, i) => SendLogsOne(plan, w, m, i, e);
    case InviteWithdrawn(t, restAllows, x) => WithdrawLogsOne(plan, w, t, restAllows, x, e);
    case _ =>
  }
}
