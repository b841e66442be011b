/** Concrete runs that show what the funnel's laws do not promise. */
module FunnelCases {
  import opened Wrappers
  import opened Actions
  import opened FunnelWorld
  import opened FunnelLaws
  import opened FunnelRuns
  import opened FunnelFrames
  import opened FunnelTheorems
  import opened TickRuns
  import opened ContactLock
  import opened Suppression

  ghost predicate Follows(plan: Plan, w: World, e: Event, v: World) {
    Enabled(plan, w, e) && v == Apply(plan, w, e)
  }

  lemma OneMore(plan: Plan, w: World, e: Event, worlds: seq<World>, events: seq<Event>)
    requires Run(plan, worlds, events) && Follows(plan, w, e, worlds[0])
    ensures Run(plan, [w] + worlds, [e] + events)
  {
    RunCons(plan, w, e, worlds, events);
  }

  lemma TwoEvents(plan: Plan, warm: set<TargetId>, w0: World, e0: Event, w1: World, e1: Event, w2: World)
    requires SequencePlan(plan) && Fresh(warm, w0) && Follows(plan, w0, e0, w1) && Follows(plan, w1, e1, w2)
    ensures History(plan, warm, [w0] + ([w1] + [w2]), [e0] + ([e1] + []))
  {
    OneMore(plan, w1, e1, [w2], []);
    OneMore(plan, w0, e0, [w1] + [w2], [e1] + []);
  }

  lemma ThreeEvents(plan: Plan, warm: set<TargetId>, w0: World, e0: Event, w1: World, e1: Event, w2: World, e2: Event, w3: World)
    requires SequencePlan(plan) && Fresh(warm, w0)
    requires Follows(plan, w0, e0, w1) && Follows(plan, w1, e1, w2) && Follows(plan, w2, e2, w3)
    ensures History(plan, warm, [w0] + ([w1] + ([w2] + [w3])), [e0] + ([e1] + ([e2] + [])))
  {
    OneMore(plan, w2, e2, [w3], []);
    OneMore(plan, w1, e1, [w2] + [w3], [e2] + []);
    OneMore(plan, w0, e0, [w1] + ([w2] + [w3]), [e1] + ([e2] + []));
  }

  // ----- a lead stranded behind a draft nobody can approve

  const VIEW := StepDef(Act(ViewProfile), 0)

  /** One supervised lead, about to take its first step. */
  function OneLead(): World {
    World(0, map[0 := Supervised], map[0 := Target(0, 7, Sourced, false)],
          map[0 := Cursor(0, 0, InProgress, 0, None, None)], [], {}, map[], [])
  }

  lemma FirstStepQueues(plan: Plan, kind: ActionType)
    requires plan.Steps(0) == [StepDef(Act(kind), 0)] && kind != ActionType.Message
    ensures DispatchStep(plan, OneLead(), 0, TICK).w == QueueDraft(OneLead(), 0, kind, 0)
  {
    var w := OneLead();
    assert At(w, 0) == w;
    assert LockGuard(w, 0, TICK).None?;
  }

  const ONE_INVITE := Plan(map[0 := [INVITE]], 10)
  const ONE_VIEW := Plan(map[0 := [VIEW]], 10)

  lemma StartsAreFresh()
    ensures Fresh({}, OneLead()) && SequencePlan(ONE_INVITE) && SequencePlan(ONE_VIEW)
    ensures ONE_INVITE.Steps(0) == [INVITE] && ONE_VIEW.Steps(0) == [VIEW]
  {
  }

  const REJECTED := [Stepped(0, TICK), DraftDecided(0, Reject, 0, false)]

  /** A rejection recorded on the audit-only route leaves the cursor parked for good. */
  lemma AuditOnlyRejectionStrands() returns (worlds: seq<World>)
    ensures History(ONE_INVITE, {}, worlds, REJECTED) && worlds[0] == OneLead()
    ensures !Stranded(worlds[1], 0) && Stranded(worlds[2], 0)
  {
    var plan := ONE_INVITE;
    StartsAreFresh();
    FirstStepQueues(plan, ActionType.Connect);
    var w1 := QueueDraft(OneLead(), 0, ActionType.Connect, 0);
    var w2 := DecideDraft(w1, 0, Reject, 0, false);
    assert w1.messages[0].target == 0 && Live(w1.messages[0].status);
    TwoEvents(plan, {}, OneLead(), REJECTED[0], w1, REJECTED[1], w2);
    worlds := [OneLead()] + ([w1] + [w2]);
    assert [REJECTED[0]] + ([REJECTED[1]] + []) == REJECTED;
  }

  const NOTHING_THERE := SendInput(0, true, NoProbe, Ran(ActionResult.Skipped), ANY_DAY)
  const VIEW_SKIPPED := [Stepped(0, TICK), DraftDecided(0, Approve, 0, true), SendTried(0, NOTHING_THERE)]

  /** The draft of the view, approved. */
  function ViewApproved(): World {
    DecideDraft(QueueDraft(OneLead(), 0, ViewProfile, 0), 0, Approve, 0, true)
  }

  lemma SkippedViewIsCancelled(plan: Plan)
    ensures Enabled(plan, ViewApproved(), SendTried(0, NOTHING_THERE))
    ensures !Stranded(ViewApproved(), 0) && Stranded(SendApproved(plan, ViewApproved(), 0, NOTHING_THERE), 0)
  {
    var w := ViewApproved();
    assert w.messages[0].target == 0 && Live(w.messages[0].status);
    assert At(w, 0) == w;
    assert CountFailed(w.log, 0, ViewProfile, 0) == 0;
  }

  /** An approved profile view that came back with nothing done leaves it parked too. */
  lemma SkippedViewStrands() returns (worlds: seq<World>)
    ensures History(ONE_VIEW, {}, worlds, VIEW_SKIPPED) && worlds[0] == OneLead()
    ensures !Stranded(worlds[2], 0) && Stranded(worlds[3], 0)
  {
    var plan := ONE_VIEW;
    StartsAreFresh();
    FirstStepQueues(plan, ViewProfile);
    SkippedViewIsCancelled(plan);
    var w1 := QueueDraft(OneLead(), 0, ViewProfile, 0);
    var w3 := SendApproved(plan, ViewApproved(), 0, NOTHING_THERE);
    assert Follows(plan, OneLead(), VIEW_SKIPPED[0], w1);
    assert Follows(plan, w1, VIEW_SKIPPED[1], ViewApproved());
    ThreeEvents(plan, {}, OneLead(), VIEW_SKIPPED[0], w1, VIEW_SKIPPED[1], ViewApproved(), VIEW_SKIPPED[2], w3);
    worlds := [OneLead()] + ([w1] + ([ViewApproved()] + [w3]));
    assert [VIEW_SKIPPED[0]] + ([VIEW_SKIPPED[1]] + ([VIEW_SKIPPED[2]] + [])) == VIEW_SKIPPED;
  }

  // ----- a person who said stop

  /** One person in two semi-autonomous campaigns, the second about to view the profile. */
  function KnownTwice(): World {
    World(0, map[0 := SemiAuto, 1 := SemiAuto],
          map[0 := Target(0, 7, Invited, false), 1 := Target(1, 7, Sourced, false)],
          map[0 := Cursor(0, 0, AwaitingConnection, 1, None, None), 1 := Cursor(1, 0, InProgress, 0, None, None)],
          [], {}, map[], [])
  }

  const STOP_THEN_VIEW := [ReplyRouted(0, Stop), Stepped(1, TICK)]
  const ONE_OF_EACH := Plan(map[0 := [INVITE], 1 := [VIEW]], 10)

  lemma StopIsRouted()
    ensures var w := RouteReply(KnownTwice(), 0, Stop);
            && w.clock == 0 && w.levels == KnownTwice().levels && w.cursors == KnownTwice().cursors[0 := w.cursors[0]]
            && w.targets.Keys == {0, 1} && w.targets[1] == Target(1, 7, Sourced, false)
            && w.suppressed == {7} && w.log == [Routed(0)]
  {
  }

  lemma ViewGoesOut(w: World)
    requires w.clock == 0 && LevelOf(w, 1) == SemiAuto && 1 in w.cursors
    requires w.cursors[1] == Cursor(1, 0, InProgress, 0, None, None)
    ensures DispatchStep(ONE_OF_EACH, w, 1, TICK).w.log == w.log + [Drove(0, 1, 0, ViewProfile, Success, Direct(SemiAuto, 0))]
  {
    assert At(w, 0) == w;
    assert ONE_OF_EACH.Steps(1) == [VIEW];
    FireLogIs(ONE_OF_EACH, w, 1, ViewProfile, TICK);
  }

  lemma ViewIsNext()
    ensures Enabled(ONE_OF_EACH, RouteReply(KnownTwice(), 0, Stop), Stepped(1, TICK))
  {
    StopIsRouted();
  }

  /** The person's other lead is still viewed: only messages and invites ask the list. */
  lemma ViewedAfterStop() returns (worlds: seq<World>)
    ensures History(ONE_OF_EACH, {}, worlds, STOP_THEN_VIEW) && worlds[0] == KnownTwice()
    ensures IsSuppressed(worlds[1], 1)
    ensures worlds[2].log == [Routed(0), Drove(0, 1, 0, ViewProfile, Success, Direct(SemiAuto, 0))]
  {
    var w1 := RouteReply(KnownTwice(), 0, Stop);
    var w2 := DispatchStep(ONE_OF_EACH, w1, 1, TICK).w;
    StopIsRouted();
    ViewGoesOut(w1);
    assert Follows(ONE_OF_EACH, w1, STOP_THEN_VIEW[1], w2) by {
      ViewIsNext();
    }
    assert Fresh({}, KnownTwice()) by {
      KnownTwiceIsExclusive();
    }
    TwoEvents(ONE_OF_EACH, {}, KnownTwice(), STOP_THEN_VIEW[0], w1, STOP_THEN_VIEW[1], w2);
    worlds := [KnownTwice()] + ([w1] + [w2]);
    assert [STOP_THEN_VIEW[0]] + ([STOP_THEN_VIEW[1]] + []) == STOP_THEN_VIEW;
  }

  // ----- two campaigns contacting one person through a routed reply

  lemma KnownTwiceIsExclusive()
    ensures Fresh({}, KnownTwice()) && Exclusive(KnownTwice())
  {
  }

  /** A reply routed to the lead of one campaign while another has the person invited. */
  lemma RoutedReplyBreaksExclusion()
    ensures var w := KnownTwice();
            Fresh({}, w) && Exclusive(w) && Enabled(TWO_CAMPAIGNS, w, ReplyRouted(1, Interested))
            && !Exclusive(Apply(TWO_CAMPAIGNS, w, ReplyRouted(1, Interested)))
  {
    KnownTwiceIsExclusive();
    var v := RouteReply(KnownTwice(), 1, Interested);
    assert v.targets == map[0 := Target(0, 7, Invited, false), 1 := Target(1, 7, InConversation, false)];
    assert Rivals(v, 0, 1) && BothContacted(v, 0, 1);
  }
}
