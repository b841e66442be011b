/** The human gate and the guards before it, spelled out: which levels let which actions out,
and exactly when a due step drafts, drives, or does neither. Nothing here is stated through
the predicates the dispatcher decides by. */
module HumanGate {
  import opened Wrappers
  import opened Actions
  import opened FunnelWorld
  import opened FunnelRuns
  import opened FunnelEntries
  import opened FunnelTheorems

  // ----- over every run

  /** No supervised campaign drives anything by itself, and no campaign but an autonomous one
      sends a message without a decision on it. */
  lemma NothingGoesOutUnasked(plan: Plan, warm: set<TargetId>, worlds: seq<World>, events: seq<Event>, n: nat, i: nat)
    requires History(plan, warm, worlds, events) && n < |worlds| && i < |worlds[n].log|
    requires worlds[n].log[i].Drove? && !worlds[n].log[i].via.ByApproval?
    ensures worlds[n].log[i].via.level != Supervised
    ensures worlds[n].log[i].kind == ActionType.Message ==> worlds[n].log[i].via.level == Autonomous
  {
    EveryCallIsGated(plan, warm, worlds, events, n, i);
  }

  /** The autonomy level a campaign runs at. */
  predicate RunsAt(w: World, c: CampaignId, level: AutonomyLevel) {
    if c in w.levels then w.levels[c] == level else level == Supervised
  }

  /** A draft is only ever made where a human is asked: by a supervised campaign, or for a message
      by a semi-autonomous one; and it holds the text prepared for that step. */
  lemma DraftsOnlyWhereAskedFor(plan: Plan, w: World, e: Event, v: World)
    requires Enabled(plan, w, e) && v == Apply(plan, w, e)
    requires AddsOne(w.log, v.log) && v.log[|w.log|].Drafted?
    ensures e.Stepped? && v.log[|w.log|].target == e.t && e.t in w.cursors
    ensures var n, c := v.log[|w.log|], w.cursors[e.t];
            && (RunsAt(w, c.campaign, Supervised) || (RunsAt(w, c.campaign, SemiAuto) && n.kind == ActionType.Message))
            && v.messages == w.messages + [Message.Message(e.t, c.account, n.kind, e.step.draft, Draft, e.step.now)]
            && v.cursors[e.t] == c.(state := AwaitingApproval)
  {
    EventLogsOne(plan, w, e);
    DraftingStep(plan, w, e.t, e.step);
  }

  lemma DraftingStep(plan: Plan, w: World, t: TargetId, i: StepInput)
    requires t in w.cursors
    requires var v := DispatchStep(plan, w, t, i).w; AddsOne(w.log, v.log) && v.log[|w.log|].Drafted?
    ensures var v := DispatchStep(plan, w, t, i).w;
            var n, c := v.log[|w.log|], w.cursors[t];
            && (RunsAt(w, c.campaign, Supervised) || (RunsAt(w, c.campaign, SemiAuto) && n.kind == ActionType.Message))
            && v.messages == w.messages + [Message.Message(t, c.account, n.kind, i.draft, Draft, i.now)]
            && t in v.cursors && v.cursors[t] == c.(state := AwaitingApproval)
  {
    var now := At(w, i.now);
    var c := now.cursors[t];
    var steps := plan.Steps(c.campaign);
    if c.step < |steps| && steps[c.step].kind != Delay {
      var kind := steps[c.step].kind.action;
      if Guard(now, t, kind, i).Some? {
        GuardLogsOne(now, t, kind, i);
      } else {
        FireIsCallOrDraft(plan, now, t, kind, i);
        ExecLogsOne(now, t, c.account, kind, i.exec, Direct(LevelOf(now, c.campaign), c.step));
      }
    }
  }

  // ----- exactly when a step acts

  /** A row of the same person in another campaign that has been contacted. */
  predicate ContactedElsewhere(w: World, t: TargetId, c: CampaignId, u: TargetId) {
    && t in w.targets && u in w.targets
    && w.targets[u].person == w.targets[t].person && w.targets[u].campaign != c
    && w.targets[u].stage in {Invited, Connected, InConversation, Stage.Replied, Won}
  }

  predicate Hushed(w: World, t: TargetId) {
    t in w.targets && w.targets[t].person in w.suppressed
  }

  /** Nothing stands in the way of the step: the lead is plainly connected for a message, not
      suppressed and not contacted elsewhere for a message or an invite, and a message has
      found no reply, nor a broken inbox where it would go straight out. */
  ghost predicate WayIsClear(w: World, t: TargetId, kind: ActionType, i: StepInput)
    requires t in w.cursors
  {
    var c := w.cursors[t].campaign;
    && (kind == ActionType.Message ==>
          && t in w.targets && w.targets[t].stage == Connected
          && !i.probe.Answered? && (i.probe.Broken? ==> !RunsAt(w, c, Autonomous)))
    && (kind in {ActionType.Message, ActionType.Connect} ==>
          !Hushed(w, t) && forall u :: u in i.listing ==> !ContactedElsewhere(w, t, c, u))
  }

  /** The action leaves without being asked about. */
  predicate GoesStraightOut(w: World, c: CampaignId, kind: ActionType) {
    RunsAt(w, c, Autonomous) || (RunsAt(w, c, SemiAuto) && kind != ActionType.Message)
  }

  /** The account may act: the rest of the gate allows it and, for an invite, the pile has room. */
  predicate MayAct(plan: Plan, w: World, a: AccountId, kind: ActionType, restAllows: bool) {
    restAllows && (kind == ActionType.Connect ==> (a in w.outstanding && w.outstanding[a] < plan.outstandingCeiling)
                                                  || (a !in w.outstanding && 0 < plan.outstandingCeiling))
  }

  predicate StandsOn(plan: Plan, c: Cursor, kind: ActionType) {
    c.campaign in plan.steps && c.step < |plan.steps[c.campaign]| && plan.steps[c.campaign][c.step].kind == Act(kind)
  }

  lemma GuardsPassWhenClear(w: World, t: TargetId, kind: ActionType, i: StepInput)
    requires t in w.cursors
    ensures Guard(w, t, kind, i).None? <==> WayIsClear(w, t, kind, i)
  {
    if t in w.targets {
      NoBlockerIff(w, t, w.cursors[t].campaign, i.listing);
    }
  }

  lemma {:induction false} NoBlockerIff(w: World, t: TargetId, c: CampaignId, listing: seq<TargetId>)
    requires t in w.targets
    ensures FirstBlocker(w, c, w.targets[t].person, listing).None?
            <==> forall u :: u in listing ==> !ContactedElsewhere(w, t, c, u)
  {
    if listing != [] {
      NoBlockerIff(w, t, c, listing[1..]);
      assert forall u :: u in listing <==> u == listing[0] || u in listing[1..];
    }
  }

  /** The one entry an event logged, if it logged one. */
  function NewEntry(w: World, v: World): Option<Entry> {
    if AddsOne(w.log, v.log) then Some(v.log[|w.log|]) else None
  }

  /** What a drive leaves in its row: its own result, or a failure when it threw; no row otherwise. */
  function RowOf(x: Exec): Option<ActionResult> {
    match x
    case Ran(result) => Some(result)
    case DriveThrew => Some(ActionResult.Failed)
    case NoDrive | MintRefused => None
  }

  /** What a step logs once nothing stands in its way. */
  ghost predicate LogsItsAction(plan: Plan, w: World, t: TargetId, kind: ActionType, i: StepInput, now: int, n: Option<Entry>)
    requires t in w.cursors
  {
    var c := w.cursors[t];
    if !GoesStraightOut(w, c.campaign, kind) then n == Some(Drafted(t, c.step, kind, |w.messages|))
    else if !MayAct(plan, w, c.account, kind, i.restAllows) || RowOf(i.exec).None? then n == None
    else
      && n.Some? && n.value.Drove? && n.value.via.Direct? && RunsAt(w, c.campaign, n.value.via.level)
      && n.value == Drove(now, t, c.account, kind, RowOf(i.exec).value, Direct(n.value.via.level, c.step))
  }

  /** A step on an action. With the way clear it drafts exactly when a human is asked, and
      otherwise drives exactly when the account may act; with the way barred it does neither. */
  lemma StepActsIff(plan: Plan, w: World, t: TargetId, kind: ActionType, i: StepInput)
    requires t in w.cursors && StandsOn(plan, w.cursors[t], kind)
    ensures var n := NewEntry(w, DispatchStep(plan, w, t, i).w);
            if WayIsClear(w, t, kind, i) then LogsItsAction(plan, w, t, kind, i, i.now, n)
            else n == None || n == Some(Routed(t))
  {
    var now := At(w, i.now);
    var c := w.cursors[t];
    assert plan.Steps(c.campaign) == plan.steps[c.campaign];
    GuardsPassWhenClear(now, t, kind, i);
    assert WayIsClear(now, t, kind, i) <==> WayIsClear(w, t, kind, i);
    if Guard(now, t, kind, i).Some? {
      GuardLogsOne(now, t, kind, i);
    } else {
      FiringLogs(plan, now, t, kind, i);
    }
  }

  lemma FiringLogs(plan: Plan, w: World, t: TargetId, kind: ActionType, i: StepInput)
    requires t in w.cursors
    ensures LogsItsAction(plan, w, t, kind, i, w.clock, NewEntry(w, Fire(plan, w, t, kind, i).w))
  {
    var c := w.cursors[t];
    var level := LevelOf(w, c.campaign);
    var v := Fire(plan, w, t, kind, i).w;
    assert MayExecuteDirectly(level, kind) <==> GoesStraightOut(w, c.campaign, kind);
    if !MayExecuteDirectly(level, kind) {
      assert v.log == w.log + [Drafted(t, c.step, kind, |w.messages|)];
    } else if !GateOpen(plan, w, c.account, kind, i.restAllows) || i.exec.MintRefused? {
      assert v == w;
    } else {
      DrivenLogs(plan, w, t, kind, i);
      ExecLogsOne(w, t, c.account, kind, i.exec, Direct(level, c.step));
    }
  }

  lemma DrivenLogs(plan: Plan, w: World, t: TargetId, kind: ActionType, i: StepInput)
    requires t in w.cursors && MayExecuteDirectly(LevelOf(w, w.cursors[t].campaign), kind)
    requires GateOpen(plan, w, w.cursors[t].account, kind, i.restAllows) && !i.exec.MintRefused?
    ensures var c := w.cursors[t];
            Fire(plan, w, t, kind, i).w.log
            == w.log + if RowOf(i.exec).None? then []
                       else [Drove(w.clock, t, c.account, kind, RowOf(i.exec).value, Direct(LevelOf(w, c.campaign), c.step))]
  {
    assert w.log + [] == w.log;
  }
}
