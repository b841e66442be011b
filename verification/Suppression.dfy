/** What must be true at the moment a message or an invite is drafted or driven, and
what that makes of a person who said stop. */
module Suppression {
  import opened Wrappers
  import opened Actions
  import opened FunnelWorld
  import opened FunnelLaws
  import opened FunnelRuns
  import opened FunnelEntries
  import opened FunnelFrames
  import opened FunnelTheorems
  import opened ContactLock

  /** A message or an invite, drafted or driven by the sequence. */
  predicate Contact(n: Entry) {
    Outreach(n) && n.kind in {ActionType.Message, ActionType.Connect}
  }

  /** What the sequence's own contact met: an unsuppressed lead nobody else contacts and,
      for a message, one plainly connected that no probe found replying. */
  ghost predicate StepLicensed(w: World, t: TargetId, i: StepInput, n: Entry) {
    && t in w.targets && w.targets[t].person !in w.suppressed && Unblocked(w, t)
    && (n.Drafted? || n.Drove?)
    && (n.kind == ActionType.Message ==>
          && w.targets[t].stage == Connected && !i.probe.Answered?
          && (n.Drove? ==> !i.probe.Broken?))
  }

  lemma StepContactIsLicensed(plan: Plan, w: World, t: TargetId, i: StepInput)
    requires WellFormed(w) && t in w.cursors && ListsEverybody(w, t, i.listing)
    ensures var v := DispatchStep(plan, w, t, i).w;
            AddsOne(w.log, v.log) && Contact(v.log[|w.log|]) ==> StepLicensed(w, t, i, v.log[|w.log|])
  {
    var now := At(w, i.now);
    var c := now.cursors[t];
    var steps := plan.Steps(c.campaign);
    if c.step < |steps| && steps[c.step].kind != Delay {
      var kind := steps[c.step].kind.action;
      if Guard(now, t, kind, i).Some? {
        GuardLogsOne(now, t, kind, i);
      } else {
        FireLogsItsKind(plan, now, t, kind, i);
        if kind in {ActionType.Message, ActionType.Connect} {
          PassingMeansUnblocked(now, t, i);
          assert forall u :: Rivals(now, t, u) <==> Rivals(w, t, u);
        }
      }
    }
  }

  /** What firing logs carries the step's kind; a message is driven only where no human is asked. */
  lemma FireLogsItsKind(plan: Plan, w: World, t: TargetId, kind: ActionType, i: StepInput)
    requires t in w.cursors
    ensures var v := Fire(plan, w, t, kind, i).w;
            AddsOne(w.log, v.log) ==> var n := v.log[|w.log|];
                                      || (n.Drafted? && n.kind == kind && !MayExecuteDirectly(LevelOf(w, w.cursors[t].campaign), kind))
                                      || (n.Drove? && n.kind == kind && MayExecuteDirectly(LevelOf(w, w.cursors[t].campaign), kind))
  {
    var c := w.cursors[t];
    FireIsCallOrDraft(plan, w, t, kind, i);
    ExecLogsOne(w, t, c.account, kind, i.exec, Direct(LevelOf(w, c.campaign), c.step));
  }

  /** What an approved send met: an open gate, an unsuppressed person and, for a message, a
      lead still there, not lost, not replied, due, and a probe that came back clear. */
  ghost predicate SendLicensed(plan: Plan, w: World, m: MessageId, i: SendInput)
    requires m < |w.messages|
  {
    var msg := w.messages[m];
    var t := msg.target;
    && GateOpen(plan, w, msg.account, msg.kind, i.restAllows)
    && !IsSuppressed(w, t)
    && (msg.kind == ActionType.Message ==>
          && t in w.targets && w.targets[t].stage != Lost
          && (t in w.cursors ==> w.cursors[t].state != ProgressState.Replied
                                 && (w.cursors[t].nextAt.Some? ==> w.cursors[t].nextAt.value <= i.now))
          && !i.probe.Answered? && !i.probe.Broken?)
  }

  lemma SendContactIsLicensed(plan: Plan, w: World, m: MessageId, i: SendInput)
    requires m < |w.messages|
    ensures var v := SendApproved(plan, w, m, i);
            AddsOne(w.log, v.log) && v.log[|w.log|].Drove? ==> SendLicensed(plan, w, m, i)
  {
    var now := At(w, i.now);
    var msg := now.messages[m];
    if CountFailed(now.log, msg.target, msg.kind, msg.createdAt) < MAX_SEND_ATTEMPTS && SendGuard(now, m, i).Some? {
      SendGuardLogsOne(now, m, i);
    }
  }

  // ----- a person who said stop

  /** Whoever a new contact is aimed at was not suppressed at that moment. */
  lemma ContactMeetsNoSuppressed(plan: Plan, warm: set<TargetId>, w: World, e: Event, v: World)
    requires Inv(plan, warm, w) && Enabled(plan, w, e) && v == Apply(plan, w, e)
    requires AddsOne(w.log, v.log) && Contact(v.log[|w.log|])
    ensures !IsSuppressed(w, TargetOf(v.log[|w.log|]))
  {
    EventLogsOne(plan, w, e);
    match e
    case Stepped(t, i) => StepContactIsLicensed(plan, w, t, i);
    case SendTried(m, i) => SendContactIsLicensed(plan, w, m, i);
    case _ =>
  }

  /** Nobody is ever unsuppressed. */
  ghost predicate Hushes(w: World, v: World) {
    w.suppressed <= v.suppressed
  }

  lemma GuardHushes(w: World, t: TargetId, kind: ActionType, i: StepInput)
    requires t in w.cursors && Guard(w, t, kind, i).Some?
    ensures Hushes(w, Guard(w, t, kind, i).value.w)
  {
  }

  lemma FireHushes(plan: Plan, w: World, t: TargetId, kind: ActionType, i: StepInput)
    requires t in w.cursors
    ensures Hushes(w, Fire(plan, w, t, kind, i).w)
  {
    if MayExecuteDirectly(LevelOf(w, w.cursors[t].campaign), kind) {
      FireResolves(plan, w, t, kind, i);
    }
  }

  lemma StepHushes(plan: Plan, w: World, t: TargetId, i: StepInput)
    requires t in w.cursors
    ensures Hushes(w, DispatchStep(plan, w, t, i).w)
  {
    var now := At(w, i.now);
    var steps := plan.Steps(now.cursors[t].campaign);
    if now.cursors[t].step < |steps| && steps[now.cursors[t].step].kind != Delay {
      var kind := steps[now.cursors[t].step].kind.action;
      if Guard(now, t, kind, i).Some? {
        GuardHushes(now, t, kind, i);
      } else {
        FireHushes(plan, now, t, kind, i);
      }
    }
  }

  lemma SendHushes(plan: Plan, w: World, m: MessageId, i: SendInput)
    requires m < |w.messages|
    ensures Hushes(w, SendApproved(plan, w, m, i))
  {
    var now := At(w, i.now);
    if SendGuard(now, m, i).Some? {
      SendGuardShape(now, m, i);
    }
    ResultHushes(plan, now, m, i);
  }

  lemma ResultHushes(plan: Plan, w: World, m: MessageId, i: SendInput)
    requires m < |w.messages|
    ensures Hushes(w, SendResult(plan, w, m, i))
  {
    if i.exec == Ran(Success) {
      DeliveryResolves(plan, w, m, i);
    } else if i.exec == Ran(ActionResult.Skipped) {
      NothingSentResolves(plan, w, m, i);
    }
  }

  lemma EventHushes(plan: Plan, w: World, e: Event)
    requires Enabled(plan, w, e)
    ensures Hushes(w, Apply(plan, w, e))
  {
    match e
    case Stepped(t, i) => StepHushes(plan, w, t, i);
    case SendTried(m, i) => SendHushes(plan, w, m, i);
    case _ =>
  }

  /** Entry i, if it is a contact, is aimed at a known lead of somebody else. */
  ghost predicate Spares(w: World, i: nat, p: Person) {
    i < |w.log| && Contact(w.log[i]) ==> TargetOf(w.log[i]) in w.targets && w.targets[TargetOf(w.log[i])].person != p
  }

  lemma {:induction false} StaysSuppressed(plan: Plan, warm: set<TargetId>, worlds: seq<World>, events: seq<Event>, a: nat, b: nat, p: Person)
    requires History(plan, warm, worlds, events) && a <= b < |worlds| && p in worlds[a].suppressed
    ensures p in worlds[b].suppressed
    decreases b
  {
    if a < b {
      var n := b - 1;
      assert p in worlds[n].suppressed by {
        StaysSuppressed(plan, warm, worlds, events, a, n, p);
      }
      assert worlds[n].suppressed <= worlds[n + 1].suppressed by {
        NextHushes(plan, warm, worlds, events, n);
      }
    }
  }

  lemma NextHushes(plan: Plan, warm: set<TargetId>, worlds: seq<World>, events: seq<Event>, n: nat)
    requires History(plan, warm, worlds, events) && n < |events|
    ensures worlds[n].suppressed <= worlds[n + 1].suppressed
  {
    EventHushes(plan, worlds[n], events[n]);
  }

  /** Once person p is suppressed, nobody of that person is contacted again, in any campaign. */
  lemma {:induction false} SuppressedStaysSilent(plan: Plan, warm: set<TargetId>, worlds: seq<World>, events: seq<Event>,
                                                 a: nat, b: nat, p: Person, i: nat)
    requires History(plan, warm, worlds, events) && a <= b < |worlds| && p in worlds[a].suppressed
    requires |worlds[a].log| <= i
    ensures Spares(worlds[b], i, p)
    decreases b
  {
    if a == b {
      assert |worlds[b].log| <= i;
    } else {
      var n := b - 1;
      SuppressedStaysSilent(plan, warm, worlds, events, a, n, p, i);
      assert p in worlds[n].suppressed by {
        StaysSuppressed(plan, warm, worlds, events, a, n, p);
      }
      SilentOneMore(plan, warm, worlds, events, n, p, i);
    }
  }

  /** The next event contacts nobody suppressed, and earlier contacts stay aimed where they were. */
  lemma SilentOneMore(plan: Plan, warm: set<TargetId>, worlds: seq<World>, events: seq<Event>, n: nat, p: Person, i: nat)
    requires History(plan, warm, worlds, events) && n < |events| && p in worlds[n].suppressed
    requires Spares(worlds[n], i, p)
    ensures Spares(worlds[n + 1], i, p)
  {
    HistoryKept(plan, warm, worlds, events, n, n + 1);
    ForwardKeepsPeople(plan, worlds[n], worlds[n + 1]);
    if i < |worlds[n].log| {
      OldEntrySpares(worlds[n], worlds[n + 1], p, i);
    } else if i < |worlds[n + 1].log| {
      NewEntrySpares(plan, warm, worlds[n], events[n], worlds[n + 1], p);
    }
  }

  /** The log only grows, and no lead becomes somebody else. */
  ghost predicate PeopleStay(w: World, v: World) {
    w.log <= v.log && forall t :: t in w.targets ==> t in v.targets && v.targets[t].person == w.targets[t].person
  }

  lemma ForwardKeepsPeople(plan: Plan, w: World, v: World)
    requires Forward(plan, w, v)
    ensures PeopleStay(w, v)
  {
  }

  lemma OldEntrySpares(w: World, v: World, p: Person, i: nat)
    requires PeopleStay(w, v) && i < |w.log| && Spares(w, i, p)
    ensures Spares(v, i, p)
  {
    assert v.log[i] == w.log[i];
  }

  lemma NewEntrySpares(plan: Plan, warm: set<TargetId>, w: World, e: Event, v: World, p: Person)
    requires Inv(plan, warm, w) && Enabled(plan, w, e) && v == Apply(plan, w, e) && PeopleStay(w, v)
    requires p in w.suppressed && |w.log| < |v.log|
    ensures |v.log| == |w.log| + 1 && Spares(v, |w.log|, p)
  {
    AimedAtALead(plan, w, e, v);
    if Contact(v.log[|w.log|]) {
      ContactMeetsNoSuppressed(plan, warm, w, e, v);
    }
  }

  /** A new contact is aimed at a lead that is enrolled. */
  lemma AimedAtALead(plan: Plan, w: World, e: Event, v: World)
    requires Enabled(plan, w, e) && v == Apply(plan, w, e) && WellFormed(w) && w.log <= v.log && |w.log| < |v.log|
    ensures AddsOne(w.log, v.log)
    ensures Contact(v.log[|w.log|]) ==> TargetOf(v.log[|w.log|]) in w.targets
  {
    EventLogsOne(plan, w, e);
  }

  /** The event routes a Stop for lead t: handed in by the detector, or found by a probe. */
  predicate RoutesStop(w: World, e: Event, v: World, t: TargetId) {
    && AddsOne(w.log, v.log) && v.log[|w.log|] == Routed(t)
    && match e
       case ReplyRouted(_, intent) => intent == Stop
       case Stepped(_, i) => i.probe == Answered(Some(Stop))
       case SendTried(_, i) => i.probe == Answered(Some(Stop))
       case _ => false
  }

  /** Whichever way it was routed, the person is suppressed from then on. */
  lemma StopSuppresses(plan: Plan, w: World, e: Event, v: World, t: TargetId)
    requires WellFormed(w) && Enabled(plan, w, e) && v == Apply(plan, w, e) && RoutesStop(w, e, v, t)
    requires forall m :: 0 <= m < |w.messages| ==> w.messages[m].target in w.targets
    ensures t in w.targets && w.targets[t].person in v.suppressed
  {
    match e
    case Stepped(u, i) => StepStopSuppresses(plan, w, u, i, t);
    case SendTried(m, i) => SendStopSuppresses(plan, w, m, i, t);
    case _ =>
  }

  lemma StepStopSuppresses(plan: Plan, w: World, u: TargetId, i: StepInput, t: TargetId)
    requires WellFormed(w) && u in w.cursors && i.probe == Answered(Some(Stop))
    requires var v := DispatchStep(plan, w, u, i).w; AddsOne(w.log, v.log) && v.log[|w.log|] == Routed(t)
    ensures t in w.targets && w.targets[t].person in DispatchStep(plan, w, u, i).w.suppressed
  {
    var now := At(w, i.now);
    var c := now.cursors[u];
    var steps := plan.Steps(c.campaign);
    if c.step < |steps| && steps[c.step].kind != Delay {
      var kind := steps[c.step].kind.action;
      if Guard(now, u, kind, i).Some? {
        GuardEndsByProbe(now, u, kind, i);
      } else {
        FireNeverEnds(plan, now, u, kind, i);
      }
    }
  }

  lemma SendStopSuppresses(plan: Plan, w: World, m: MessageId, i: SendInput, t: TargetId)
    requires m < |w.messages| && w.messages[m].target in w.targets && i.probe == Answered(Some(Stop))
    requires var v := SendApproved(plan, w, m, i); AddsOne(w.log, v.log) && v.log[|w.log|] == Routed(t)
    ensures t in w.targets && w.targets[t].person in SendApproved(plan, w, m, i).suppressed
  {
    var now := At(w, i.now);
    var msg := now.messages[m];
    if CountFailed(now.log, msg.target, msg.kind, msg.createdAt) < MAX_SEND_ATTEMPTS {
      if SendGuard(now, m, i).Some? {
        SendGuardShape(now, m, i);
      } else {
        SendIsCall(plan, now, m, i);
        ExecLogsOne(now, msg.target, msg.account, msg.kind, i.exec, ByApproval(m, msg.body));
      }
    }
  }

  /** A Stop routed for one lead, by whatever path, silences the person everywhere, for good. */
  lemma StopSilencesThePerson(plan: Plan, warm: set<TargetId>, worlds: seq<World>, events: seq<Event>, a: nat, b: nat,
                              t: TargetId, i: nat)
    requires History(plan, warm, worlds, events) && a < b < |worlds| && RoutesStop(worlds[a], events[a], worlds[a + 1], t)
    requires |worlds[a + 1].log| <= i < |worlds[b].log| && Contact(worlds[b].log[i])
    ensures t in worlds[a].targets && TargetOf(worlds[b].log[i]) in worlds[b].targets
    ensures worlds[b].targets[TargetOf(worlds[b].log[i])].person != worlds[a].targets[t].person
  {
    HistoryKept(plan, warm, worlds, events, a, a);
    StopSuppresses(plan, worlds[a], events[a], worlds[a + 1], t);
    var p := worlds[a].targets[t].person;
    SuppressedStaysSilent(plan, warm, worlds, events, a + 1, b, p, i);
    assert Spares(worlds[b], i, p);
  }

  // ----- what the other steps still do about a suppressed person

  /** The step is one the suppression list is not asked about. */
  predicate AsksUnchecked(plan: Plan, c: Cursor) {
    c.step < |plan.Steps(c.campaign)| && plan.Steps(c.campaign)[c.step].kind.Act?
    && plan.Steps(c.campaign)[c.step].kind.action !in {ActionType.Message, ActionType.Connect}
  }

  function KindAt(plan: Plan, c: Cursor): ActionType
    requires AsksUnchecked(plan, c)
  {
    plan.Steps(c.campaign)[c.step].kind.action
  }

  /** A row is left whenever a drive was started. */
  predicate LeavesRow(x: Exec) {
    x.Ran? || x.DriveThrew?
  }

  /** A step about a suppressed lead: it still acts exactly when its kind is neither a message
      nor an invite, directly where the level lets it and behind a draft where it does not. */
  lemma SuppressedStepIff(plan: Plan, w: World, t: TargetId, i: StepInput)
    requires t in w.cursors && IsSuppressed(w, t)
    ensures var v, c := DispatchStep(plan, w, t, i).w, w.cursors[t];
            && (AddsOne(w.log, v.log) && v.log[|w.log|].Drove? <==>
                  && AsksUnchecked(plan, c) && MayExecuteDirectly(LevelOf(w, c.campaign), KindAt(plan, c))
                  && GateOpen(plan, w, c.account, KindAt(plan, c), i.restAllows) && LeavesRow(i.exec))
            && (AddsOne(w.log, v.log) && v.log[|w.log|].Drafted? <==>
                  AsksUnchecked(plan, c) && !MayExecuteDirectly(LevelOf(w, c.campaign), KindAt(plan, c)))
  {
    var now := At(w, i.now);
    var c := now.cursors[t];
    var steps := plan.Steps(c.campaign);
    if c.step < |steps| && steps[c.step].kind.Act? {
      var kind := steps[c.step].kind.action;
      if kind in {ActionType.Message, ActionType.Connect} {
        SuppressedGuard(now, t, kind, i);
      } else if !MayExecuteDirectly(LevelOf(now, c.campaign), kind) {
        assert DispatchStep(plan, w, t, i).w == QueueDraft(now, t, kind, i.draft);
      } else {
        FireLogIs(plan, now, t, kind, i);
      }
    }
  }

  lemma SuppressedGuard(w: World, t: TargetId, kind: ActionType, i: StepInput)
    requires t in w.cursors && IsSuppressed(w, t) && kind in {ActionType.Message, ActionType.Connect}
    ensures Guard(w, t, kind, i).Some? && Guard(w, t, kind, i).value.w.log == w.log
  {
  }

  /** What a direct drive leaves in the log. */
  lemma FireLogIs(plan: Plan, w: World, t: TargetId, kind: ActionType, i: StepInput)
    requires t in w.cursors && MayExecuteDirectly(LevelOf(w, w.cursors[t].campaign), kind)
    ensures var v, c := Fire(plan, w, t, kind, i).w, w.cursors[t];
            v.log == if GateOpen(plan, w, c.account, kind, i.restAllows)
                     then ExecEffect(w, t, c.account, kind, i.exec, Direct(LevelOf(w, c.campaign), c.step)).log else w.log
  {
  }
}
