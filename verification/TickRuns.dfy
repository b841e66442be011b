/** A whole dispatch tick: the snapshots it iterates over never go stale, so a tick is
a run of single events and inherits every law about runs. */
module TickRuns {
  import opened Wrappers
  import opened Actions
  import opened FunnelWorld
  import opened FunnelLaws
  import opened FunnelRuns
  import opened FunnelFrames
  import opened FunnelStores

  // ----- what a tick does to the tables as a whole

  /** The enrollment table and the dials keep their keys, and nobody changes person. */
  ghost predicate Steady(w: World, v: World) {
    && v.levels == w.levels && v.cursors.Keys == w.cursors.Keys && v.targets.Keys == w.targets.Keys
    && |w.messages| <= |v.messages|
    && forall t :: t in w.targets ==> v.targets[t].person == w.targets[t].person
  }

  /** The same, at the same instant. */
  ghost predicate Still(w: World, v: World) {
    Steady(w, v) && v.clock == w.clock
  }

  lemma StillTwice(u: World, v: World, w: World)
    requires Still(u, v) && Still(v, w)
    ensures Still(u, w)
  {
  }

  lemma StopIsStill(w: World, t: TargetId, terminal: ProgressState)
    ensures Still(w, StopFunnel(w, t, terminal))
  {
  }

  lemma StageIsStill(w: World, t: TargetId, stage: Stage)
    ensures Still(w, SetStage(w, t, stage))
  {
  }

  lemma CursorIsStill(w: World, t: TargetId, d: Cursor)
    requires t in w.cursors
    ensures Still(w, SetCursor(w, t, d))
  {
  }

  lemma ExecIsStill(w: World, t: TargetId, a: AccountId, kind: ActionType, x: Exec, via: Via)
    ensures Still(w, ExecEffect(w, t, a, kind, x, via))
  {
  }

  lemma LeaveIsStill(w: World, t: TargetId, terminal: ProgressState, stage: Stage)
    ensures Still(w, SetStage(StopFunnel(w, t, terminal), t, stage))
  {
    var left := StopFunnel(w, t, terminal);
    StopIsStill(w, t, terminal);
    StageIsStill(left, t, stage);
    StillTwice(w, left, SetStage(left, t, stage));
  }

  lemma RouteIsStill(w: World, t: TargetId, intent: Intent)
    ensures Still(w, RouteReply(w, t, intent))
  {
    LeaveIsStill(w, t, ProgressState.Replied, StageFor(intent));
  }

  lemma ProbeIsStill(w: World, t: TargetId, p: Probe)
    ensures Still(w, ProbeEffect(w, t, p))
  {
    if p.Answered? && p.route.Some? {
      RouteIsStill(w, t, p.route.value);
    }
  }

  lemma ResolvingIsStill(w: World, ran: World, v: World, t: TargetId)
    requires Still(w, ran) && Resolved(ran, v, t)
    ensures Still(w, v)
  {
    StageIsStill(ran, t, Invited);
    StillTwice(w, ran, SetStage(ran, t, Invited));
    if t in ran.cursors && t in v.cursors {
      CursorIsStill(ran, t, v.cursors[t]);
      CursorIsStill(SetStage(ran, t, Invited), t, v.cursors[t]);
    }
  }

  lemma GuardIsStill(w: World, t: TargetId, kind: ActionType, i: StepInput)
    requires t in w.cursors && Guard(w, t, kind, i).Some?
    ensures Still(w, Guard(w, t, kind, i).value.w)
  {
    StopIsStill(w, t, ProgressState.Replied);
    LeaveIsStill(w, t, ProgressState.Skipped, Lost);
    ProbeIsStill(w, t, i.probe);
    var v := Guard(w, t, kind, i).value.w;
    assert || v == w || v == StopFunnel(w, t, ProgressState.Replied) || v == ProbeEffect(w, t, i.probe)
           || v == SetStage(StopFunnel(w, t, ProgressState.Skipped), t, Lost);
  }

  lemma FireIsStill(plan: Plan, w: World, t: TargetId, kind: ActionType, i: StepInput)
    requires t in w.cursors
    ensures Still(w, Fire(plan, w, t, kind, i).w)
  {
    var c := w.cursors[t];
    if MayExecuteDirectly(LevelOf(w, c.campaign), kind) {
      var via := Direct(LevelOf(w, c.campaign), c.step);
      FireResolves(plan, w, t, kind, i);
      ExecIsStill(w, t, c.account, kind, i.exec, via);
      if Fire(plan, w, t, kind, i).w != w {
        ResolvingIsStill(w, ExecEffect(w, t, c.account, kind, i.exec, via), Fire(plan, w, t, kind, i).w, t);
      }
    }
  }

  lemma StepIsSteady(plan: Plan, w: World, t: TargetId, i: StepInput)
    requires t in w.cursors
    ensures var v := DispatchStep(plan, w, t, i).w; Steady(w, v) && v.clock == i.now
  {
    var now := At(w, i.now);
    var steps := plan.Steps(now.cursors[t].campaign);
    if now.cursors[t].step < |steps| && steps[now.cursors[t].step].kind != Delay {
      var kind := steps[now.cursors[t].step].kind.action;
      if Guard(now, t, kind, i).Some? {
        GuardIsStill(now, t, kind, i);
      } else {
        FireIsStill(plan, now, t, kind, i);
      }
    }
  }

  lemma StatusIsStill(w: World, m: MessageId, status: MessageStatus)
    requires m < |w.messages|
    ensures Still(w, SetStatus(w, m, status))
  {
  }

  lemma SendResultIsStill(plan: Plan, w: World, m: MessageId, i: SendInput)
    requires m < |w.messages|
    ensures Still(w, SendResult(plan, w, m, i))
  {
    var msg := w.messages[m];
    var via := ByApproval(m, msg.body);
    var ran := ExecEffect(w, msg.target, msg.account, msg.kind, i.exec, via);
    ExecIsStill(w, msg.target, msg.account, msg.kind, i.exec, via);
    if i.exec == Ran(Success) {
      DeliveryResolves(plan, w, m, i);
      StatusIsStill(ran, m, Sent);
      StillTwice(w, ran, SetStatus(ran, m, Sent));
      ResolvingIsStill(w, SetStatus(ran, m, Sent), SendResult(plan, w, m, i), msg.target);
    } else if i.exec == Ran(ActionResult.Skipped) {
      NothingSentResolves(plan, w, m, i);
      StatusIsStill(ran, m, Cancelled);
      StillTwice(w, ran, SetStatus(ran, m, Cancelled));
      ResolvingIsStill(w, SetStatus(ran, m, Cancelled), SendResult(plan, w, m, i), msg.target);
    }
  }

  lemma GiveUpIsStill(w: World, m: MessageId)
    requires m < |w.messages|
    ensures Still(w, GiveUp(w, m))
  {
  }

  lemma SendGuardIsStill(w: World, m: MessageId, i: SendInput)
    requires m < |w.messages|
    ensures SendGuard(w, m, i).Some? ==> Still(w, SendGuard(w, m, i).value)
  {
    var dropped := SetStatus(w, m, Cancelled);
    StatusIsStill(w, m, Cancelled);
    StopIsStill(dropped, w.messages[m].target, ProgressState.Replied);
    StillTwice(w, dropped, CancelApproved(w, m));
    ProbeIsStill(w, w.messages[m].target, i.probe);
  }

  lemma SendIsSteady(plan: Plan, w: World, m: MessageId, i: SendInput)
    requires m < |w.messages|
    ensures var v := SendApproved(plan, w, m, i); Steady(w, v) && v.clock == i.now
  {
    var now := At(w, i.now);
    GiveUpIsStill(now, m);
    SendGuardIsStill(now, m, i);
    SendResultIsStill(plan, now, m, i);
  }

  // ----- the loops of a tick, as folds

  ghost function SendAll(plan: Plan, w: World, ids: seq<MessageId>, inputs: MessageId -> SendInput): World
    requires forall k :: 0 <= k < |ids| ==> ids[k] < |w.messages|
    ensures Steady(w, SendAll(plan, w, ids, inputs))
    decreases |ids|
  {
    if ids == [] then w
    else
      SendIsSteady(plan, w, ids[0], inputs(ids[0]));
      SendAll(plan, SendApproved(plan, w, ids[0], inputs(ids[0])), ids[1..], inputs)
  }

  ghost function StepAll(plan: Plan, w: World, rows: seq<TargetId>, inputs: TargetId -> StepInput): World
    requires forall k :: 0 <= k < |rows| ==> rows[k] in w.cursors
    ensures Steady(w, StepAll(plan, w, rows, inputs))
    decreases |rows|
  {
    if rows == [] then w
    else
      StepIsSteady(plan, w, rows[0], inputs(rows[0]));
      StepAll(plan, DispatchStep(plan, w, rows[0], inputs(rows[0])).w, rows[1..], inputs)
  }

  /** Draft a message step before its time, unless the level would send it at once. */
  predicate WantsEarlyDraft(plan: Plan, w: World, t: TargetId)
    requires t in w.cursors
  {
    var c := w.cursors[t];
    && c.step < |plan.Steps(c.campaign)|
    && plan.Steps(c.campaign)[c.step].kind == Act(ActionType.Message)
    && !MayExecuteDirectly(LevelOf(w, c.campaign), ActionType.Message)
  }

  ghost function DraftEarly(plan: Plan, w: World, rows: seq<TargetId>, inputs: TargetId -> StepInput): World
    requires forall k :: 0 <= k < |rows| ==> rows[k] in w.cursors
    decreases |rows|
  {
    if rows == [] then w
    else
      StepIsSteady(plan, w, rows[0], inputs(rows[0]));
      var v := if WantsEarlyDraft(plan, w, rows[0]) then DispatchStep(plan, w, rows[0], inputs(rows[0])).w else w;
      DraftEarly(plan, v, rows[1..], inputs)
  }

  // ----- what the loops report

  datatype Report = OfSend(m: MessageId, send: SendOutcome) | OfStep(t: TargetId, step: StepOutcome)

  function ReportOf(m: MessageId, o: Option<SendOutcome>): seq<Report> {
    if o.Some? then [OfSend(m, o.value)] else []
  }

  ghost function SendReports(plan: Plan, w: World, ids: seq<MessageId>, inputs: MessageId -> SendInput): seq<Report>
    requires forall k :: 0 <= k < |ids| ==> ids[k] < |w.messages|
    decreases |ids|
  {
    if ids == [] then []
    else
      SendIsSteady(plan, w, ids[0], inputs(ids[0]));
      ReportOf(ids[0], SendReport(plan, w, ids[0], inputs(ids[0])))
        + SendReports(plan, SendApproved(plan, w, ids[0], inputs(ids[0])), ids[1..], inputs)
  }

  /** One report per row stepped. */
  ghost function StepReports(plan: Plan, w: World, rows: seq<TargetId>, inputs: TargetId -> StepInput): (r: seq<Report>)
    requires forall k :: 0 <= k < |rows| ==> rows[k] in w.cursors
    ensures |r| == |rows|
    decreases |rows|
  {
    if rows == [] then []
    else
      StepIsSteady(plan, w, rows[0], inputs(rows[0]));
      var after := DispatchStep(plan, w, rows[0], inputs(rows[0]));
      [OfStep(rows[0], after.outcome)] + StepReports(plan, after.w, rows[1..], inputs)
  }

  ghost function EarlyReports(plan: Plan, w: World, rows: seq<TargetId>, inputs: TargetId -> StepInput): (r: seq<Report>)
    requires forall k :: 0 <= k < |rows| ==> rows[k] in w.cursors
    decreases |rows|
  {
    if rows == [] then []
    else
      StepIsSteady(plan, w, rows[0], inputs(rows[0]));
      var after := DispatchStep(plan, w, rows[0], inputs(rows[0]));
      if WantsEarlyDraft(plan, w, rows[0]) then
        [OfStep(rows[0], after.outcome)] + EarlyReports(plan, after.w, rows[1..], inputs)
      else EarlyReports(plan, w, rows[1..], inputs)
  }

  // ----- each loop is a run

  lemma RunCons(plan: Plan, w: World, e: Event, worlds: seq<World>, events: seq<Event>)
    requires Enabled(plan, w, e) && Run(plan, worlds, events) && worlds[0] == Apply(plan, w, e)
    ensures Run(plan, [w] + worlds, [e] + events)
  {
    var ws, es := [w] + worlds, [e] + events;
    forall k | 0 <= k < |es| ensures Enabled(plan, ws[k], es[k]) && ws[k + 1] == Apply(plan, ws[k], es[k]) {
      if k > 0 {
        assert Enabled(plan, worlds[k - 1], events[k - 1]) && worlds[k] == Apply(plan, worlds[k - 1], events[k - 1]);
      }
    }
  }

  /** The approved rows of a snapshot are still approved when their turn comes. */
  lemma ApprovedStays(plan: Plan, warm: set<TargetId>, w: World, m: MessageId, i: SendInput, n: MessageId)
    requires Inv(plan, warm, w) && m < |w.messages| && n < |w.messages| && m != n
    requires w.messages[m].status == Approved && w.messages[n].status == Approved
    ensures var v := SendApproved(plan, w, m, i); n < |v.messages| && v.messages[n] == w.messages[n]
  {
    assert w.messages[m].target != w.messages[n].target;
    SendOthers(plan, w, m, i, w.messages[n].target);
  }

  /** A snapshot of approved rows, oldest first. */
  ghost predicate Sendable(w: World, ids: seq<MessageId>) {
    && (forall k :: 0 <= k < |ids| ==> ids[k] < |w.messages| && w.messages[ids[k]].status == Approved)
    && (forall j, k :: 0 <= j < k < |ids| ==> ids[j] < ids[k])
  }

  lemma StillSendable(plan: Plan, warm: set<TargetId>, w: World, ids: seq<MessageId>, i: SendInput)
    requires Inv(plan, warm, w) && ids != [] && Sendable(w, ids)
    ensures Sendable(SendApproved(plan, w, ids[0], i), ids[1..])
  {
    var v := SendApproved(plan, w, ids[0], i);
    forall k | 0 <= k < |ids[1..]| ensures ids[1..][k] < |v.messages| && v.messages[ids[1..][k]].status == Approved {
      ApprovedStays(plan, warm, w, ids[0], i, ids[k + 1]);
    }
  }

  lemma SendCons(plan: Plan, w: World, m: MessageId, i: SendInput, worlds: seq<World>, events: seq<Event>)
    requires w.clock <= i.now && m < |w.messages| && w.messages[m].status == Approved
    requires Run(plan, worlds, events) && worlds[0] == SendApproved(plan, w, m, i)
    ensures Run(plan, [w] + worlds, [SendTried(m, i)] + events)
  {
    RunCons(plan, w, SendTried(m, i), worlds, events);
  }

  /** The send loop is a run of sends, one per row of the snapshot. */
  lemma {:induction false} SendsAreARun(plan: Plan, warm: set<TargetId>, w: World, ids: seq<MessageId>, now: int,
                                        inputs: MessageId -> SendInput)
      returns (worlds: seq<World>, events: seq<Event>)
    requires SequencePlan(plan) && Inv(plan, warm, w) && w.clock <= now && Sendable(w, ids)
    requires forall m :: inputs(m).now == now
    ensures Run(plan, worlds, events) && worlds[0] == w && worlds[|worlds| - 1] == SendAll(plan, w, ids, inputs)
    ensures |events| == |ids| && forall k :: 0 <= k < |ids| ==> events[k] == SendTried(ids[k], inputs(ids[k]))
    decreases |ids|, 1
  {
    if ids == [] {
      worlds, events := [w], [];
    } else {
      var m, i := ids[0], inputs(ids[0]);
      var v := SendApproved(plan, w, m, i);
      var ws, es := LaterSends(plan, warm, w, ids, now, inputs);
      SendCons(plan, w, m, i, ws, es);
      worlds, events := [w] + ws, [SendTried(m, i)] + es;
      TriedInOrder(ids, inputs, es);
    }
  }

  lemma TriedInOrder(ids: seq<MessageId>, inputs: MessageId -> SendInput, es: seq<Event>)
    requires ids != [] && |es| == |ids[1..]|
    requires forall k :: 0 <= k < |ids[1..]| ==> es[k] == SendTried(ids[1..][k], inputs(ids[1..][k]))
    ensures var events := [SendTried(ids[0], inputs(ids[0]))] + es;
            |events| == |ids| && forall k :: 0 <= k < |ids| ==> events[k] == SendTried(ids[k], inputs(ids[k]))
  {
  }

  lemma {:induction false} LaterSends(plan: Plan, warm: set<TargetId>, w: World, ids: seq<MessageId>, now: int,
                                      inputs: MessageId -> SendInput)
      returns (worlds: seq<World>, events: seq<Event>)
    requires SequencePlan(plan) && Inv(plan, warm, w) && w.clock <= now && ids != [] && Sendable(w, ids)
    requires forall m :: inputs(m).now == now
    ensures var v := SendApproved(plan, w, ids[0], inputs(ids[0]));
            && (forall k :: 0 <= k < |ids[1..]| ==> ids[1..][k] < |v.messages|)
            && Run(plan, worlds, events) && worlds[0] == v && worlds[|worlds| - 1] == SendAll(plan, v, ids[1..], inputs)
    ensures |events| == |ids[1..]| && forall k :: 0 <= k < |ids[1..]| ==> events[k] == SendTried(ids[1..][k], inputs(ids[1..][k]))
    decreases |ids|, 0
  {
    var v := SendApproved(plan, w, ids[0], inputs(ids[0]));
    assert Inv(plan, warm, v) by {
      SendKept(plan, warm, w, ids[0], inputs(ids[0]));
    }
    assert v.clock == now by {
      SendIsSteady(plan, w, ids[0], inputs(ids[0]));
    }
    StillSendable(plan, warm, w, ids, inputs(ids[0]));
    worlds, events := SendsAreARun(plan, warm, v, ids[1..], now, inputs);
  }

  /** A snapshot of steppable rows, each once, with every listing complete. */
  ghost predicate Steppable(plan: Plan, w: World, rows: seq<TargetId>, now: int, inputs: TargetId -> StepInput) {
    && (forall k :: 0 <= k < |rows| ==> MayStep(plan, w, rows[k], now) && ListsEverybody(w, rows[k], inputs(rows[k]).listing))
    && (forall j, k :: 0 <= j < k < |rows| ==> rows[j] != rows[k])
  }

  /** A row another step left alone is still steppable. */
  lemma SteppableStays(plan: Plan, w: World, t: TargetId, i: StepInput, u: TargetId, now: int, listing: seq<TargetId>)
    requires t in w.cursors && u != t && MayStep(plan, w, u, now) && ListsEverybody(w, u, listing)
    ensures var v := DispatchStep(plan, w, t, i).w; MayStep(plan, v, u, now) && ListsEverybody(v, u, listing) && v.cursors[u] == w.cursors[u]
  {
    StepOthers(plan, w, t, i, u);
    StepIsSteady(plan, w, t, i);
  }

  lemma StillSteppable(plan: Plan, w: World, rows: seq<TargetId>, now: int, inputs: TargetId -> StepInput)
    requires rows != [] && Steppable(plan, w, rows, now, inputs)
    ensures Steppable(plan, DispatchStep(plan, w, rows[0], inputs(rows[0])).w, rows[1..], now, inputs)
  {
    var v := DispatchStep(plan, w, rows[0], inputs(rows[0])).w;
    forall k | 0 <= k < |rows[1..]|
      ensures MayStep(plan, v, rows[1..][k], now) && ListsEverybody(v, rows[1..][k], inputs(rows[1..][k]).listing)
    {
      SteppableStays(plan, w, rows[0], inputs(rows[0]), rows[k + 1], now, inputs(rows[k + 1]).listing);
    }
  }

  lemma StepCons(plan: Plan, w: World, t: TargetId, i: StepInput, worlds: seq<World>, events: seq<Event>)
    requires w.clock <= i.now && MayStep(plan, w, t, i.now) && ListsEverybody(w, t, i.listing)
    requires Run(plan, worlds, events) && worlds[0] == DispatchStep(plan, w, t, i).w
    ensures Run(plan, [w] + worlds, [Stepped(t, i)] + events)
  {
    RunCons(plan, w, Stepped(t, i), worlds, events);
  }

  /** The step loop is a run of steps, one per row of the snapshot. */
  lemma {:induction false} StepsAreARun(plan: Plan, warm: set<TargetId>, w: World, rows: seq<TargetId>, now: int,
                                        inputs: TargetId -> StepInput)
      returns (worlds: seq<World>, events: seq<Event>)
    requires SequencePlan(plan) && Inv(plan, warm, w) && w.clock <= now && Steppable(plan, w, rows, now, inputs)
    requires forall t :: inputs(t).now == now
    ensures Run(plan, worlds, events) && worlds[0] == w
    ensures (forall k :: 0 <= k < |rows| ==> rows[k] in w.cursors) && worlds[|worlds| - 1] == StepAll(plan, w, rows, inputs)
    ensures |events| == |rows| && forall k :: 0 <= k < |rows| ==> events[k] == Stepped(rows[k], inputs(rows[k]))
    decreases |rows|, 1
  {
    assert forall k :: 0 <= k < |rows| ==> MayStep(plan, w, rows[k], now);
    if rows == [] {
      worlds, events := [w], [];
    } else {
      var t, i := rows[0], inputs(rows[0]);
      var ws, es := LaterSteps(plan, warm, w, rows, now, inputs);
      StepCons(plan, w, t, i, ws, es);
      worlds, events := [w] + ws, [Stepped(t, i)] + es;
    }
  }

  lemma {:induction false} LaterSteps(plan: Plan, warm: set<TargetId>, w: World, rows: seq<TargetId>, now: int,
                                      inputs: TargetId -> StepInput)
      returns (worlds: seq<World>, events: seq<Event>)
    requires SequencePlan(plan) && Inv(plan, warm, w) && w.clock <= now && rows != [] && Steppable(plan, w, rows, now, inputs)
    requires forall t :: inputs(t).now == now
    ensures rows[0] in w.cursors
    ensures var v := DispatchStep(plan, w, rows[0], inputs(rows[0])).w;
            && (forall k :: 0 <= k < |rows[1..]| ==> rows[1..][k] in v.cursors)
            && Run(plan, worlds, events) && worlds[0] == v && worlds[|worlds| - 1] == StepAll(plan, v, rows[1..], inputs)
    ensures |events| == |rows[1..]| && forall k :: 0 <= k < |rows[1..]| ==> events[k] == Stepped(rows[1..][k], inputs(rows[1..][k]))
    decreases |rows|, 0
  {
    assert MayStep(plan, w, rows[0], now);
    var v := DispatchStep(plan, w, rows[0], inputs(rows[0])).w;
    assert Inv(plan, warm, v) by {
      StepKept(plan, warm, w, rows[0], inputs(rows[0]));
    }
    assert v.clock == now by {
      StepIsSteady(plan, w, rows[0], inputs(rows[0]));
    }
    StillSteppable(plan, w, rows, now, inputs);
    worlds, events := StepsAreARun(plan, warm, v, rows[1..], now, inputs);
  }

  /** The rows of the early pass that really are drafted. */
  ghost function EarlyRows(plan: Plan, w: World, rows: seq<TargetId>): (early: seq<TargetId>)
    requires forall k :: 0 <= k < |rows| ==> rows[k] in w.cursors
    ensures forall t :: t in early ==> t in rows && t in w.cursors && WantsEarlyDraft(plan, w, t)
    ensures |early| <= |rows|
    decreases |rows|
  {
    if rows == [] then []
    else (if WantsEarlyDraft(plan, w, rows[0]) then [rows[0]] else []) + EarlyRows(plan, w, rows[1..])
  }

  /** They are the rows on a message step whose campaign does not send by itself. */
  lemma {:induction false} EarlyRowsAre(plan: Plan, w: World, rows: seq<TargetId>, t: TargetId)
    requires forall k :: 0 <= k < |rows| ==> rows[k] in w.cursors
    ensures t in EarlyRows(plan, w, rows) <==>
              && t in rows
              && var c := w.cursors[t];
              && c.campaign in plan.steps && c.step < |plan.steps[c.campaign]|
              && plan.steps[c.campaign][c.step].kind == Act(ActionType.Message)
              && !(c.campaign in w.levels && w.levels[c.campaign] == Autonomous)
    decreases |rows|
  {
    if rows != [] {
      EarlyRowsAre(plan, w, rows[1..], t);
      assert t in rows <==> t == rows[0] || t in rows[1..];
    }
  }

  predicate Once(rows: seq<TargetId>) {
    forall j, k :: 0 <= j < k < |rows| ==> rows[j] != rows[k]
  }

  lemma {:induction false} EarlyRowsOnce(plan: Plan, w: World, rows: seq<TargetId>)
    requires (forall k :: 0 <= k < |rows| ==> rows[k] in w.cursors) && Once(rows)
    ensures Once(EarlyRows(plan, w, rows))
    decreases |rows|
  {
    if rows != [] {
      EarlyRowsOnce(plan, w, rows[1..]);
      assert rows[0] !in rows[1..];
    }
  }

  /** Stepping one lead changes nobody else's wish for an early draft. */
  lemma {:induction false} EarlyRowsStay(plan: Plan, w: World, v: World, rows: seq<TargetId>)
    requires forall k :: 0 <= k < |rows| ==> rows[k] in w.cursors && rows[k] in v.cursors && v.cursors[rows[k]] == w.cursors[rows[k]]
    requires v.levels == w.levels
    ensures EarlyRows(plan, v, rows) == EarlyRows(plan, w, rows)
    decreases |rows|
  {
    if rows != [] {
      EarlyRowsStay(plan, w, v, rows[1..]);
    }
  }

  /** The early pass steps exactly the rows that want it. */
  lemma {:induction false} EarlyPassSteps(plan: Plan, w: World, rows: seq<TargetId>, inputs: TargetId -> StepInput)
    requires (forall k :: 0 <= k < |rows| ==> rows[k] in w.cursors) && Once(rows)
    ensures DraftEarly(plan, w, rows, inputs) == StepAll(plan, w, EarlyRows(plan, w, rows), inputs)
    decreases |rows|
  {
    if rows != [] {
      var t, rest := rows[0], rows[1..];
      if WantsEarlyDraft(plan, w, t) {
        var v := DispatchStep(plan, w, t, inputs(t)).w;
        StepIsSteady(plan, w, t, inputs(t));
        forall k | 0 <= k < |rest| ensures rest[k] in v.cursors && v.cursors[rest[k]] == w.cursors[rest[k]] {
          StepOthers(plan, w, t, inputs(t), rest[k]);
        }
        EarlyRowsStay(plan, w, v, rest);
        EarlyPassSteps(plan, v, rest, inputs);
        assert EarlyRows(plan, w, rows)[1..] == EarlyRows(plan, w, rest);
      } else {
        EarlyPassSteps(plan, w, rest, inputs);
        assert EarlyRows(plan, w, rows) == EarlyRows(plan, w, rest);
      }
    }
  }

  lemma RunAppend(plan: Plan, ws: seq<World>, es: seq<Event>, vs: seq<World>, fs: seq<Event>)
    requires Run(plan, ws, es) && Run(plan, vs, fs) && ws[|ws| - 1] == vs[0]
    ensures Run(plan, ws + vs[1..], es + fs)
    ensures (ws + vs[1..])[0] == ws[0] && (ws + vs[1..])[|ws| + |vs| - 2] == vs[|vs| - 1]
  {
    var xs, gs := ws + vs[1..], es + fs;
    forall k | 0 <= k < |gs| ensures Enabled(plan, xs[k], gs[k]) && xs[k + 1] == Apply(plan, xs[k], gs[k]) {
      if k < |es| {
        assert Enabled(plan, ws[k], es[k]) && ws[k + 1] == Apply(plan, ws[k], es[k]);
      } else {
        var j := k - |es|;
        assert Enabled(plan, vs[j], fs[j]) && vs[j + 1] == Apply(plan, vs[j], fs[j]);
        assert xs[k] == vs[j] && xs[k + 1] == vs[j + 1];
      }
    }
  }

  /** The listing every step is given is complete. */
  ghost predicate CompleteListings(w: World, inputs: TargetId -> StepInput) {
    forall t :: t in w.targets ==> ListsEverybody(w, t, inputs(t).listing)
  }

  lemma ListingsStayComplete(w: World, v: World, inputs: TargetId -> StepInput)
    requires Steady(w, v) && CompleteListings(w, inputs)
    ensures CompleteListings(v, inputs)
  {
    forall t | t in v.targets ensures ListsEverybody(v, t, inputs(t).listing) {
      assert ListsEverybody(w, t, inputs(t).listing);
    }
  }

  lemma DueIsSteppable(plan: Plan, w: World, rows: seq<TargetId>, now: int, inputs: TargetId -> StepInput)
    requires WellFormed(w) && CompleteListings(w, inputs) && Once(rows)
    requires forall k :: 0 <= k < |rows| ==> rows[k] in w.cursors && IsDue(w.cursors[rows[k]], now)
    ensures Steppable(plan, w, rows, now, inputs)
  {
  }

  lemma EarlyIsSteppable(plan: Plan, w: World, rows: seq<TargetId>, now: int, inputs: TargetId -> StepInput)
    requires WellFormed(w) && CompleteListings(w, inputs) && Once(rows)
    requires forall k :: 0 <= k < |rows| ==> rows[k] in w.cursors && IsUpcoming(w.cursors[rows[k]], now)
    ensures Steppable(plan, w, EarlyRows(plan, w, rows), now, inputs)
  {
    EarlyRowsOnce(plan, w, rows);
    forall k | 0 <= k < |EarlyRows(plan, w, rows)|
      ensures MayStep(plan, w, EarlyRows(plan, w, rows)[k], now)
      ensures ListsEverybody(w, EarlyRows(plan, w, rows)[k], inputs(EarlyRows(plan, w, rows)[k]).listing)
    {
      var t := EarlyRows(plan, w, rows)[k];
      assert t in rows;
    }
  }

  /** Where the run stands after the events so far. */
  ghost predicate Reaches(plan: Plan, warm: set<TargetId>, w: World, ws: seq<World>, es: seq<Event>, v: World, now: int) {
    Run(plan, ws, es) && ws[0] == w && ws[|ws| - 1] == v && Inv(plan, warm, v) && v.clock <= now
  }

  lemma GoOn(plan: Plan, warm: set<TargetId>, w: World, ws: seq<World>, es: seq<Event>, v: World, rows: seq<TargetId>, now: int,
             inputs: TargetId -> StepInput)
      returns (xs: seq<World>, fs: seq<Event>)
    requires SequencePlan(plan) && Reaches(plan, warm, w, ws, es, v, now) && Steppable(plan, v, rows, now, inputs)
    requires forall t :: inputs(t).now == now
    ensures (forall k :: 0 <= k < |rows| ==> rows[k] in v.cursors)
    ensures Reaches(plan, warm, w, xs, fs, StepAll(plan, v, rows, inputs), now)
  {
    var vs, gs := StepsAreARun(plan, warm, v, rows, now, inputs);
    xs, fs := ws + vs[1..], es + gs;
    RunAppend(plan, ws, es, vs, gs);
    var end := StepAll(plan, v, rows, inputs);
    assert Inv(plan, warm, end) by {
      RunKept(plan, warm, vs, gs, |vs| - 1, |vs| - 1);
    }
    assert end.clock <= now by {
      ClockAfter(plan, v, rows, now, inputs);
    }
  }

  lemma {:induction false} ClockAfter(plan: Plan, w: World, rows: seq<TargetId>, now: int, inputs: TargetId -> StepInput)
    requires (forall k :: 0 <= k < |rows| ==> rows[k] in w.cursors) && (forall t :: inputs(t).now == now) && w.clock <= now
    ensures StepAll(plan, w, rows, inputs).clock <= now
    decreases |rows|
  {
    if rows != [] {
      StepIsSteady(plan, w, rows[0], inputs(rows[0]));
      ClockAfter(plan, DispatchStep(plan, w, rows[0], inputs(rows[0])).w, rows[1..], now, inputs);
    }
  }

  lemma {:induction false} ClockAfterSends(plan: Plan, w: World, ids: seq<MessageId>, now: int, inputs: MessageId -> SendInput)
    requires (forall k :: 0 <= k < |ids| ==> ids[k] < |w.messages|) && (forall m :: inputs(m).now == now) && w.clock <= now
    ensures SendAll(plan, w, ids, inputs).clock <= now
    decreases |ids|
  {
    if ids != [] {
      SendIsSteady(plan, w, ids[0], inputs(ids[0]));
      ClockAfterSends(plan, SendApproved(plan, w, ids[0], inputs(ids[0])), ids[1..], now, inputs);
    }
  }

  /** One tick, sends then due steps then early drafts, is one run: whatever holds of
      every run from here holds across the tick. */
  lemma TickIsARun(plan: Plan, warm: set<TargetId>, w: World, ids: seq<MessageId>, due: seq<TargetId>, upcoming: seq<TargetId>,
                   now: int, sends: MessageId -> SendInput, steps: TargetId -> StepInput)
      returns (worlds: seq<World>, events: seq<Event>)
    requires SequencePlan(plan) && Inv(plan, warm, w) && w.clock <= now && CompleteListings(w, steps)
    requires (forall m :: sends(m).now == now) && (forall t :: steps(t).now == now)
    requires Sendable(w, ids) && Once(due) && Once(upcoming)
    requires var w1 := SendAll(plan, w, ids, sends);
             forall k :: 0 <= k < |due| ==> due[k] in w1.cursors && IsDue(w1.cursors[due[k]], now)
    requires var w2 := StepAll(plan, SendAll(plan, w, ids, sends), due, steps);
             forall k :: 0 <= k < |upcoming| ==> upcoming[k] in w2.cursors && IsUpcoming(w2.cursors[upcoming[k]], now)
    ensures var w2 := StepAll(plan, SendAll(plan, w, ids, sends), due, steps);
            Reaches(plan, warm, w, worlds, events, DraftEarly(plan, w2, upcoming, steps), now)
  {
    var w1 := SendAll(plan, w, ids, sends);
    var ws, es := SendsAreARun(plan, warm, w, ids, now, sends);
    RunKept(plan, warm, ws, es, |ws| - 1, |ws| - 1);
    ClockAfterSends(plan, w, ids, now, sends);
    ListingsStayComplete(w, w1, steps);
    DueIsSteppable(plan, w1, due, now, steps);
    var xs, fs := GoOn(plan, warm, w, ws, es, w1, due, now, steps);
    var w2 := StepAll(plan, w1, due, steps);
    ListingsStayComplete(w1, w2, steps);
    EarlyIsSteppable(plan, w2, upcoming, now, steps);
    EarlyPassSteps(plan, w2, upcoming, steps);
    worlds, events := GoOn(plan, warm, w, xs, fs, w2, EarlyRows(plan, w2, upcoming), now, steps);
  }
}
