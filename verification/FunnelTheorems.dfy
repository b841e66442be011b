/** What every run of the funnel promises about each lead. */
module FunnelTheorems {
  import opened Actions
  import opened FunnelWorld
  import opened FunnelLaws
  import opened FunnelRuns
  import opened FunnelEntries

  /** A run of sequence steps from a world with no history. */
  ghost predicate History(plan: Plan, warm: set<TargetId>, worlds: seq<World>, events: seq<Event>) {
    SequencePlan(plan) && Run(plan, worlds, events) && Fresh(warm, worlds[0])
  }

  lemma HistoryKept(plan: Plan, warm: set<TargetId>, worlds: seq<World>, events: seq<Event>, i: nat, j: nat)
    requires History(plan, warm, worlds, events) && i <= j < |worlds|
    ensures Inv(plan, warm, worlds[i]) && Inv(plan, warm, worlds[j]) && Forward(plan, worlds[i], worlds[j])
  {
    FreshIsInv(plan, warm, worlds[0]);
    RunKept(plan, warm, worlds, events, i, j);
    RunKept(plan, warm, worlds, events, j, j);
  }

  // ----- each step at most once

  /** The sequence handles no step index of a lead twice: not by two drafts, two
      direct executions, or one of each. */
  lemma StepHandledAtMostOnce(plan: Plan, warm: set<TargetId>, worlds: seq<World>, events: seq<Event>, k: nat, i: nat, j: nat)
    requires History(plan, warm, worlds, events) && k < |worlds| && i < j < |worlds[k].log|
    requires Handles(worlds[k].log[i]) && Handles(worlds[k].log[j])
    requires TargetOf(worlds[k].log[i]) == TargetOf(worlds[k].log[j])
    ensures HandledStep(worlds[k].log[i]) != HandledStep(worlds[k].log[j])
  {
    HistoryKept(plan, warm, worlds, events, k, k);
    assert Distinct(worlds[k].log[i], worlds[k].log[j]);
  }

  /** Entry i delivers step k of lead t: it succeeded directly at that step, or
      through the row drafted for it. */
  ghost predicate Delivers(log: seq<Entry>, i: nat, t: TargetId, k: nat) {
    && i < |log| && log[i].Drove? && log[i].target == t && log[i].result == Success
    && match log[i].via
       case Direct(_, step) => step == k
       case ByApproval(m, _) => exists d :: 0 <= d < |log| && DraftOf(log[d], t, k, m)
       case Operator(_) => false
  }

  predicate DraftOf(e: Entry, t: TargetId, k: nat, m: MessageId) {
    e.Drafted? && e.target == t && e.step == k && e.msg == m
  }

  /** No step of a lead is delivered twice, however its cursor got past it. */
  lemma StepDeliveredAtMostOnce(plan: Plan, warm: set<TargetId>, worlds: seq<World>, events: seq<Event>, n: nat,
                                t: TargetId, k: nat, i: nat, j: nat)
    requires History(plan, warm, worlds, events) && n < |worlds|
    requires Delivers(worlds[n].log, i, t, k) && Delivers(worlds[n].log, j, t, k)
    ensures i == j
  {
    HistoryKept(plan, warm, worlds, events, n, n);
    var log := worlds[n].log;
    var p := HandlerOf(log, i, t, k);
    var q := HandlerOf(log, j, t, k);
    assert LogOk(warm, worlds[n]);
    assert forall x, y :: 0 <= x < y < |log| ==> Distinct(log[x], log[y]);
  }

  /** The log entry that handled the step a delivery belongs to. */
  lemma HandlerOf(log: seq<Entry>, i: nat, t: TargetId, k: nat) returns (p: nat)
    requires Delivers(log, i, t, k)
    ensures p < |log| && Handles(log[p]) && TargetOf(log[p]) == t && HandledStep(log[p]) == k
    ensures log[i].via.Direct? ==> p == i
    ensures log[i].via.ByApproval? ==> log[p].Drafted? && log[p].msg == log[i].via.msg
  {
    if log[i].via.Direct? {
      p := i;
    } else {
      p :| 0 <= p < |log| && DraftOf(log[p], t, k, log[i].via.msg);
    }
  }

  /** Every row of the message table was drafted for a step of its lead. */
  ghost predicate RowsAreDrafts(w: World) {
    forall m :: 0 <= m < |w.messages| ==> HasDraft(w.log, w.messages[m], m)
  }

  ghost predicate HasDraft(log: seq<Entry>, msg: Message, m: MessageId) {
    exists d :: 0 <= d < |log| && IsDraftOf(log[d], msg, m)
  }

  predicate IsDraftOf(e: Entry, msg: Message, m: MessageId) {
    e.Drafted? && e.target == msg.target && e.kind == msg.kind && e.msg == m
  }

  lemma RowsCarryOver(plan: Plan, w: World, v: World)
    requires Forward(plan, w, v) && RowsAreDrafts(w)
    requires GainsOnlyDrafts(w, v)
    ensures RowsAreDrafts(v)
  {
    forall m | 0 <= m < |v.messages| ensures HasDraft(v.log, v.messages[m], m) {
      if m < |w.messages| {
        assert HasDraft(w.log, w.messages[m], m);
        var d :| 0 <= d < |w.log| && IsDraftOf(w.log[d], w.messages[m], m);
        assert MessageForward(w.messages[m], v.messages[m]);
        assert v.log[d] == w.log[d] && IsDraftOf(v.log[d], v.messages[m], m);
      }
    }
  }

  ghost predicate GainsOnlyDrafts(w: World, v: World) {
    || |v.messages| == |w.messages|
    || (|v.messages| == |w.messages| + 1 && HasDraft(v.log, v.messages[|w.messages|], |w.messages|))
  }

  lemma NewRowIsDraft(plan: Plan, w: World, e: Event, v: World)
    requires Enabled(plan, w, e) && v == Apply(plan, w, e)
    ensures GainsOnlyDrafts(w, v)
  {
    EventLogsOne(plan, w, e);
  }

  lemma NextRows(plan: Plan, warm: set<TargetId>, worlds: seq<World>, events: seq<Event>, n: nat)
    requires History(plan, warm, worlds, events) && n < |events| && RowsAreDrafts(worlds[n])
    ensures RowsAreDrafts(worlds[n + 1])
  {
    var v := worlds[n + 1];
    assert GainsOnlyDrafts(worlds[n], v) by {
      NewRowIsDraft(plan, worlds[n], events[n], v);
    }
    assert Forward(plan, worlds[n], v) by {
      HistoryKept(plan, warm, worlds, events, n, n + 1);
    }
    RowsCarryOver(plan, worlds[n], v);
  }

  lemma {:induction false} HistoryRows(plan: Plan, warm: set<TargetId>, worlds: seq<World>, events: seq<Event>, n: nat)
    requires History(plan, warm, worlds, events) && n < |worlds|
    ensures RowsAreDrafts(worlds[n])
  {
    if n > 0 {
      HistoryRows(plan, warm, worlds, events, n - 1);
      NextRows(plan, warm, worlds, events, n - 1);
    }
  }

  /** Every sequence delivery belongs to exactly one step, so the bound above misses none. */
  lemma EveryDeliveryHasItsStep(plan: Plan, warm: set<TargetId>, worlds: seq<World>, events: seq<Event>, n: nat, i: nat)
    requires History(plan, warm, worlds, events) && n < |worlds| && i < |worlds[n].log|
    requires worlds[n].log[i].Drove? && worlds[n].log[i].result == Success && !worlds[n].log[i].via.Operator?
    ensures exists k :: Delivers(worlds[n].log, i, worlds[n].log[i].target, k)
  {
    var w := worlds[n];
    var e := w.log[i];
    HistoryKept(plan, warm, worlds, events, n, n);
    assert EntryOk(warm, w, i);
    if e.via.Direct? {
      assert Delivers(w.log, i, e.target, e.via.step);
    } else {
      HistoryRows(plan, warm, worlds, events, n);
      assert HasDraft(w.log, w.messages[e.via.msg], e.via.msg);
      var d :| 0 <= d < |w.log| && IsDraftOf(w.log[d], w.messages[e.via.msg], e.via.msg);
      assert DraftOf(w.log[d], e.target, w.log[d].step, e.via.msg);
      assert Delivers(w.log, i, e.target, w.log[d].step);
    }
  }

  // ----- acceptance first, silence after a reply or a removal

  /** A lead not connected to begin with gets a message step drafted or driven only after an acceptance. */
  lemma MessageOnlyAfterAcceptance(plan: Plan, warm: set<TargetId>, worlds: seq<World>, events: seq<Event>, n: nat, i: nat)
    requires History(plan, warm, worlds, events) && n < |worlds| && i < |worlds[n].log|
    requires Outreach(worlds[n].log[i]) && worlds[n].log[i].kind == ActionType.Message
    requires TargetOf(worlds[n].log[i]) !in warm
    ensures exists j :: 0 <= j < i && worlds[n].log[j] == Accepted(TargetOf(worlds[n].log[i]))
  {
    HistoryKept(plan, warm, worlds, events, n, n);
    assert EntryOk(warm, worlds[n], i);
  }

  /** The step from w to v records that lead t replied or was removed: a routed reply, whether
      handed in by the detector or found by the draft-time or send-time probe, or a removal. */
  predicate TakesOut(w: World, v: World, t: TargetId) {
    AddsOne(w.log, v.log) && Ends(v.log[|w.log|], t)
  }

  /** A reply routed from outside, or a removal, takes its lead out. */
  lemma EventTakesOut(plan: Plan, w: World, e: Event, t: TargetId)
    requires Enabled(plan, w, e)
    requires (e.ReplyRouted? && e.t == t) || (e.LeadRemoved? && e.t == t && t in w.targets)
    ensures TakesOut(w, Apply(plan, w, e), t)
  {
  }

  /** So does a reply the draft-time probe finds for the first time. */
  lemma StepProbeTakesOut(plan: Plan, w: World, t: TargetId, i: StepInput)
    requires t in w.cursors && DispatchStep(plan, w, t, i).outcome == Held(HasReplied) && i.probe.route.Some?
    ensures TakesOut(w, DispatchStep(plan, w, t, i).w, t)
  {
  }

  /** And one the send-time probe finds before an approved message would go out. */
  lemma SendProbeTakesOut(plan: Plan, w: World, m: MessageId, i: SendInput)
    requires m < |w.messages| && ProbeStopsSend(plan, w, m, i) && i.probe.route.Some?
    ensures TakesOut(w, SendApproved(plan, w, m, i), w.messages[m].target)
  {
  }

  /** The send gets as far as the probe, which answers with a reply. */
  predicate ProbeStopsSend(plan: Plan, w0: World, m: MessageId, i: SendInput)
    requires m < |w0.messages|
  {
    var w := At(w0, i.now);
    var msg := w.messages[m];
    var t := msg.target;
    && GateOpen(plan, w, msg.account, msg.kind, i.restAllows)
    && CountFailed(w.log, t, msg.kind, msg.createdAt) < MAX_SEND_ATTEMPTS
    && msg.kind == ActionType.Message && i.probe.Answered?
    && t in w.targets && w.targets[t].stage != Lost && !IsSuppressed(w, t)
    && (t in w.cursors ==> w.cursors[t].state != ProgressState.Replied
                           && (w.cursors[t].nextAt.Some? ==> w.cursors[t].nextAt.value <= w.clock))
  }

  /** After a reply was routed or the lead removed, nothing more is drafted for it or driven at it. */
  lemma SilentAfterTheEnd(plan: Plan, warm: set<TargetId>, worlds: seq<World>, events: seq<Event>, a: nat, b: nat, t: TargetId, i: nat)
    requires History(plan, warm, worlds, events) && a < b < |worlds| && TakesOut(worlds[a], worlds[a + 1], t)
    requires |worlds[a].log| <= i < |worlds[b].log| && Outreach(worlds[b].log[i])
    ensures TargetOf(worlds[b].log[i]) != t
  {
    var j := |worlds[a].log|;
    LogPrefixKept(plan, warm, worlds, events, a + 1, b);
    assert Ends(worlds[b].log[j], t);
    QuietAfter(plan, warm, worlds, events, b, j, i, t);
  }

  lemma LogPrefixKept(plan: Plan, warm: set<TargetId>, worlds: seq<World>, events: seq<Event>, a: nat, b: nat)
    requires History(plan, warm, worlds, events) && a <= b < |worlds|
    ensures worlds[a].log <= worlds[b].log
  {
    HistoryKept(plan, warm, worlds, events, a, b);
  }

  /** Outreach never follows the entry that ended its lead's. */
  lemma QuietAfter(plan: Plan, warm: set<TargetId>, worlds: seq<World>, events: seq<Event>, n: nat, j: nat, i: nat, t: TargetId)
    requires History(plan, warm, worlds, events) && n < |worlds| && j <= i < |worlds[n].log|
    requires Ends(worlds[n].log[j], t) && Outreach(worlds[n].log[i])
    ensures TargetOf(worlds[n].log[i]) != t
  {
    HistoryKept(plan, warm, worlds, events, n, n);
    assert EntryOk(warm, worlds[n], i);
  }

  /** A row that was undelivered when its lead left is never delivered. */
  lemma UndeliveredStaysUndelivered(plan: Plan, warm: set<TargetId>, worlds: seq<World>, events: seq<Event>, a: nat, b: nat,
                                    t: TargetId, m: MessageId)
    requires History(plan, warm, worlds, events) && a < b < |worlds| && TakesOut(worlds[a], worlds[a + 1], t)
    requires m < |worlds[a].messages| && worlds[a].messages[m].target == t && worlds[a].messages[m].status != Sent
    ensures m < |worlds[b].messages| && worlds[b].messages[m].status != Sent
  {
    LeavingCancels(plan, worlds[a], events[a], worlds[a + 1], t, m);
    RowStaysDead(plan, warm, worlds, events, a + 1, b, m);
  }

  lemma RowStaysDead(plan: Plan, warm: set<TargetId>, worlds: seq<World>, events: seq<Event>, a: nat, b: nat, m: MessageId)
    requires History(plan, warm, worlds, events) && a <= b < |worlds|
    requires m < |worlds[a].messages| && worlds[a].messages[m].status in {Cancelled, Rejected}
    ensures m < |worlds[b].messages| && worlds[b].messages[m].status == worlds[a].messages[m].status
  {
    HistoryKept(plan, warm, worlds, events, a, b);
    assert MessageForward(worlds[a].messages[m], worlds[b].messages[m]);
  }

  /** Every event that records a lead's end cancels what was undelivered. */
  lemma LeavingCancels(plan: Plan, w: World, e: Event, v: World, t: TargetId, m: MessageId)
    requires Enabled(plan, w, e) && v == Apply(plan, w, e) && TakesOut(w, v, t)
    requires m < |w.messages| && w.messages[m].target == t && w.messages[m].status != Sent
    ensures m < |v.messages| && v.messages[m].status in {Cancelled, Rejected}
  {
    match e
    case Stepped(u, i) => StepLeavingCancels(plan, w, u, i, t, m);
    case SendTried(n, i) => SendLeavingCancels(plan, w, n, i, t, m);
    case InviteWithdrawn(u, restAllows, x) => WithdrawLogsOne(plan, w, u, restAllows, x, e);
    case ReplyRouted(u, intent) => RouteCancels(w, u, intent, m);
    case LeadRemoved(u) => RemovalCancels(w, u, m);
    case _ =>
  }

  lemma RouteCancels(w: World, t: TargetId, intent: Intent, m: MessageId)
    requires m < |w.messages| && w.messages[m].target == t && w.messages[m].status != Sent
    ensures var v := RouteReply(w, t, intent); m < |v.messages| && v.messages[m].status in {Cancelled, Rejected}
  {
  }

  lemma RemovalCancels(w: World, t: TargetId, m: MessageId)
    requires t in w.targets && m < |w.messages| && w.messages[m].target == t && w.messages[m].status != Sent
    ensures var v := RemoveTarget(w, t); m < |v.messages| && v.messages[m].status in {Cancelled, Rejected}
  {
  }

  /** Of all a step may do, only a routed probe logs an end. */
  lemma StepLeavingCancels(plan: Plan, w: World, u: TargetId, i: StepInput, t: TargetId, m: MessageId)
    requires u in w.cursors && TakesOut(w, DispatchStep(plan, w, u, i).w, t)
    requires m < |w.messages| && w.messages[m].target == t && w.messages[m].status != Sent
    ensures var v := DispatchStep(plan, w, u, i).w; m < |v.messages| && v.messages[m].status in {Cancelled, Rejected}
  {
    var now := At(w, i.now);
    var c := now.cursors[u];
    var steps := plan.Steps(c.campaign);
    if c.step < |steps| && steps[c.step].kind != Delay {
      var kind := steps[c.step].kind.action;
      if Guard(now, u, kind, i).Some? {
        GuardEndsByProbe(now, u, kind, i);
        RoutingCancels(now, u, i.probe, m);
      } else {
        FireNeverEnds(plan, now, u, kind, i);
      }
    }
  }

  lemma GuardEndsByProbe(w: World, u: TargetId, kind: ActionType, i: StepInput)
    requires u in w.cursors && Guard(w, u, kind, i).Some?
    ensures var v := Guard(w, u, kind, i).value.w; v.log != w.log ==> v == ProbeEffect(w, u, i.probe)
  {
  }

  lemma FireNeverEnds(plan: Plan, w: World, u: TargetId, kind: ActionType, i: StepInput)
    requires u in w.cursors
    ensures var v := Fire(plan, w, u, kind, i).w;
            v.log == w.log || (AddsOne(w.log, v.log) && Outreach(v.log[|w.log|])) || (AddsOne(w.log, v.log) && v.log[|w.log|].Drove?)
  {
    var c := w.cursors[u];
    FireIsCallOrDraft(plan, w, u, kind, i);
    ExecLogsOne(w, u, c.account, kind, i.exec, Direct(LevelOf(w, c.campaign), c.step));
  }

  lemma RoutingCancels(w: World, u: TargetId, p: Probe, m: MessageId)
    requires m < |w.messages| && w.messages[m].status != Sent && ProbeEffect(w, u, p).log != w.log
    ensures ProbeEffect(w, u, p).log == w.log + [Routed(u)]
    ensures w.messages[m].target == u ==>
              var v := ProbeEffect(w, u, p); m < |v.messages| && v.messages[m].status in {Cancelled, Rejected}
  {
  }

  lemma SendLeavingCancels(plan: Plan, w: World, n: MessageId, i: SendInput, t: TargetId, m: MessageId)
    requires n < |w.messages| && TakesOut(w, SendApproved(plan, w, n, i), t)
    requires m < |w.messages| && w.messages[m].target == t && w.messages[m].status != Sent
    ensures var v := SendApproved(plan, w, n, i); m < |v.messages| && v.messages[m].status in {Cancelled, Rejected}
  {
    var now := At(w, i.now);
    var msg := now.messages[n];
    if CountFailed(now.log, msg.target, msg.kind, msg.createdAt) < MAX_SEND_ATTEMPTS {
      if SendGuard(now, n, i).Some? {
        SendGuardShape(now, n, i);
        RoutingCancels(now, msg.target, i.probe, m);
      } else {
        SendIsCall(plan, now, n, i);
        ExecLogsOne(now, msg.target, msg.account, msg.kind, i.exec, ByApproval(n, msg.body));
      }
    }
  }

  // ----- the cursor only moves on

  /** A terminal cursor never changes again. */
  lemma TerminalIsFrozen(plan: Plan, warm: set<TargetId>, worlds: seq<World>, events: seq<Event>, a: nat, b: nat, t: TargetId)
    requires History(plan, warm, worlds, events) && a <= b < |worlds|
    requires t in worlds[a].cursors && !Active(worlds[a].cursors[t].state)
    ensures t in worlds[b].cursors && worlds[b].cursors[t] == worlds[a].cursors[t]
  {
    HistoryKept(plan, warm, worlds, events, a, b);
  }

  lemma StepNeverDecreases(plan: Plan, warm: set<TargetId>, worlds: seq<World>, events: seq<Event>, a: nat, b: nat, t: TargetId)
    requires History(plan, warm, worlds, events) && a <= b < |worlds| && t in worlds[a].cursors
    ensures t in worlds[b].cursors && worlds[a].cursors[t].step <= worlds[b].cursors[t].step
  {
    HistoryKept(plan, warm, worlds, events, a, b);
  }

  lemma CursorKept(plan: Plan, warm: set<TargetId>, worlds: seq<World>, events: seq<Event>, a: nat, b: nat, t: TargetId)
    requires History(plan, warm, worlds, events) && a <= b < |worlds| && t in worlds[a].cursors
    ensures t in worlds[b].cursors && CursorForward(plan, worlds[a].cursors[t], worlds[b].cursors[t])
  {
    HistoryKept(plan, warm, worlds, events, a, b);
  }

  /** Lead t's cursor in each world from a to b. */
  ghost function Trail(worlds: seq<World>, t: TargetId, a: nat, b: nat): (r: seq<Cursor>)
    requires a <= b < |worlds| && forall k :: a <= k <= b ==> t in worlds[k].cursors
    ensures |r| == b - a + 1
  {
    seq(b - a + 1, k requires 0 <= k <= b - a => worlds[a + k].cursors[t])
  }

  /** How often (state, step) changed along a trail. */
  function Changes(cs: seq<Cursor>): nat {
    if |cs| < 2 then 0
    else Changes(cs[..|cs| - 1]) + if SamePlace(cs[|cs| - 2], cs[|cs| - 1]) then 0 else 1
  }

  predicate ForwardTrail(plan: Plan, cs: seq<Cursor>) {
    forall k :: 0 < k < |cs| ==> CursorForward(plan, cs[k - 1], cs[k])
  }

  lemma PotentialIsBounded(plan: Plan, c: Cursor)
    ensures Potential(plan, c) <= 3 * |plan.Steps(c.campaign)| + 1
  {
  }

  /** Every change of place spends some of the potential. */
  lemma {:induction false} ChangesSpendPotential(plan: Plan, cs: seq<Cursor>)
    requires cs != [] && ForwardTrail(plan, cs)
    ensures Changes(cs) + Potential(plan, cs[|cs| - 1]) <= Potential(plan, cs[0])
  {
    if |cs| > 1 {
      ChangesSpendPotential(plan, cs[..|cs| - 1]);
      var c, d := cs[|cs| - 2], cs[|cs| - 1];
      assert CursorForward(plan, c, d);
      if SamePlace(c, d) {
        assert Potential(plan, c) == Potential(plan, d);
      }
    }
  }

  /** A cursor over n enabled steps changes place at most 3n+1 times, whatever happens. */
  lemma ChangesAreBounded(plan: Plan, warm: set<TargetId>, worlds: seq<World>, events: seq<Event>, a: nat, b: nat, t: TargetId)
    requires History(plan, warm, worlds, events) && a <= b < |worlds| && t in worlds[a].cursors
    ensures forall k :: a <= k <= b ==> t in worlds[k].cursors
    ensures Changes(Trail(worlds, t, a, b)) <= 3 * |plan.Steps(worlds[a].cursors[t].campaign)| + 1
  {
    forall k | a <= k <= b ensures t in worlds[k].cursors {
      CursorKept(plan, warm, worlds, events, a, k, t);
    }
    TrailIsForward(plan, warm, worlds, events, a, b, t);
    ChangesSpendPotential(plan, Trail(worlds, t, a, b));
    PotentialIsBounded(plan, worlds[a].cursors[t]);
  }

  lemma TrailStep(plan: Plan, warm: set<TargetId>, worlds: seq<World>, events: seq<Event>, a: nat, b: nat, t: TargetId, k: nat)
    requires History(plan, warm, worlds, events) && a <= b < |worlds| && 0 < k <= b - a
    requires forall k :: a <= k <= b ==> t in worlds[k].cursors
    ensures CursorForward(plan, Trail(worlds, t, a, b)[k - 1], Trail(worlds, t, a, b)[k])
  {
    var n := a + k - 1;
    assert t in worlds[n].cursors && t in worlds[n + 1].cursors;
    CursorKept(plan, warm, worlds, events, n, n + 1, t);
  }

  lemma TrailIsForward(plan: Plan, warm: set<TargetId>, worlds: seq<World>, events: seq<Event>, a: nat, b: nat, t: TargetId)
    requires History(plan, warm, worlds, events) && a <= b < |worlds|
    requires forall k :: a <= k <= b ==> t in worlds[k].cursors
    ensures ForwardTrail(plan, Trail(worlds, t, a, b))
  {
    var trail := Trail(worlds, t, a, b);
    forall k | 0 < k < |trail| ensures CursorForward(plan, trail[k - 1], trail[k]) {
      TrailStep(plan, warm, worlds, events, a, b, t, k);
    }
  }

  // ----- the human gate

  /** Every executor call passed the human gate: its level let it through, or the operator signed that body. */
  lemma EveryCallIsGated(plan: Plan, warm: set<TargetId>, worlds: seq<World>, events: seq<Event>, n: nat, i: nat)
    requires History(plan, warm, worlds, events) && n < |worlds| && i < |worlds[n].log| && worlds[n].log[i].Drove?
    ensures var e := worlds[n].log[i];
            match e.via
            case Direct(level, _) => MayExecuteDirectly(level, e.kind)
            case Operator(level) => MayExecuteDirectly(level, e.kind)
            case ByApproval(m, body) =>
              exists j :: 0 <= j < i && worlds[n].log[j].Decided? && worlds[n].log[j].msg == m
                          && worlds[n].log[j].decision != Reject && worlds[n].log[j].body == body
  {
    HistoryKept(plan, warm, worlds, events, n, n);
    assert EntryOk(warm, worlds[n], i);
  }

  /** The level a direct call carries is the campaign's level at that moment. */
  lemma DirectUsesPresentLevel(plan: Plan, w: World, e: Event, v: World, i: nat)
    requires Enabled(plan, w, e) && v == Apply(plan, w, e) && |w.log| <= i < |v.log|
    requires v.log[i].Drove? && !v.log[i].via.ByApproval?
    ensures var d := v.log[i];
            d.target in w.cursors && d.via.level == LevelOf(w, w.cursors[d.target].campaign)
  {
    EventLogsOne(plan, w, e);
    LoggedLevelIsPresent(w, e, v, i);
  }

  lemma LoggedLevelIsPresent(w: World, e: Event, v: World, i: nat)
    requires LogsOne(w, v, e) && |w.log| <= i < |v.log| && v.log[i].Drove? && !v.log[i].via.ByApproval?
    ensures var d := v.log[i];
            d.target in w.cursors && d.via.level == LevelOf(w, w.cursors[d.target].campaign)
  {
  }

  /** One decision, at most one delivery. */
  lemma OneDeliveryPerDecision(plan: Plan, warm: set<TargetId>, worlds: seq<World>, events: seq<Event>, n: nat, i: nat, j: nat)
    requires History(plan, warm, worlds, events) && n < |worlds| && i < |worlds[n].log| && j < |worlds[n].log|
    requires Landed(worlds[n].log[i]) && Landed(worlds[n].log[j]) && worlds[n].log[i].via.msg == worlds[n].log[j].via.msg
    ensures i == j
  {
    HistoryKept(plan, warm, worlds, events, n, n);
    assert i < j ==> Distinct(worlds[n].log[i], worlds[n].log[j]);
    assert j < i ==> Distinct(worlds[n].log[j], worlds[n].log[i]);
  }

  predicate Landed(e: Entry) {
    e.Drove? && e.via.ByApproval? && e.result == Success
  }

  /** A rejected draft is never even attempted. */
  lemma RejectionSendsNothing(plan: Plan, warm: set<TargetId>, worlds: seq<World>, events: seq<Event>, n: nat, d: nat, i: nat)
    requires History(plan, warm, worlds, events) && n < |worlds| && d < |worlds[n].log| && i < |worlds[n].log|
    requires worlds[n].log[d].Decided? && worlds[n].log[d].decision == Reject
    requires worlds[n].log[i].Drove? && worlds[n].log[i].via.ByApproval?
    ensures worlds[n].log[i].via.msg != worlds[n].log[d].msg
  {
    EveryCallIsGated(plan, warm, worlds, events, n, i);
    HistoryKept(plan, warm, worlds, events, n, n);
    var log := worlds[n].log;
    var j :| 0 <= j < i && log[j].Decided? && log[j].msg == log[i].via.msg && log[j].decision != Reject;
    assert j < d ==> Distinct(log[j], log[d]);
    assert d < j ==> Distinct(log[d], log[j]);
  }
}
