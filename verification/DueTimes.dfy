/** Due times through the funnel: what every move onto a next step stores, and that the step
is then neither driven nor sent before it. Dates and delays are spelled out in
milliseconds; nothing here is stated through the calendar's own functions. */
module DueTimes {
  import opened Wrappers
  import opened Actions
  import opened WorkingSchedule
  import opened FunnelWorld
  import opened FunnelLaws
  import opened FunnelRuns
  import opened FunnelEntries
  import opened FunnelFrames
  import opened FunnelTheorems
  import opened HumanGate
  import opened Suppression

  // ----- what is stored

  /** The lead moved on by one step: onto an enabled one, due by that step's own delay, or past the last. */
  ghost predicate MovesOn(plan: Plan, c: Cursor, d: Cursor, now: int, s: Schedule) {
    var steps := if c.campaign in plan.steps then plan.steps[c.campaign] else [];
    && d.step == c.step + 1 && d.lastAt == Some(now) && d.campaign == c.campaign && d.account == c.account
    && if d.step < |steps| then d.state == InProgress && DueBy(now, steps[d.step].delaySeconds, s, d.nextAt)
       else d.state == Completed && d.nextAt == None
  }

  predicate Moves(e: Event) {
    e.Stepped? || e.SendTried? || e.InviteAccepted?
  }

  function ScheduleOf(e: Event): Schedule
    requires Moves(e)
  {
    if e.Stepped? then e.step.schedule else if e.SendTried? then e.send.schedule else e.schedule
  }

  lemma AdvanceMovesOn(plan: Plan, c: Cursor, now: int, s: Schedule)
    ensures MovesOn(plan, c, AdvanceAfterStep(plan.Steps(c.campaign), c, now, s), now, s)
  {
    var next := c.step + 1;
    if next < |plan.Steps(c.campaign)| {
      DueIsByDelay(now, plan.Steps(c.campaign)[next].delaySeconds, s);
    }
  }

  /** Whatever moves a lead to another step, a drive, a wait, an approved send or an acceptance,
      moves it on by one and stores the due time of the step it moves onto. */
  lemma MovedOnByItsDelay(plan: Plan, w: World, e: Event, v: World, t: TargetId)
    requires Enabled(plan, w, e) && v == Apply(plan, w, e)
    requires t in w.cursors && t in v.cursors && v.cursors[t].step != w.cursors[t].step
    ensures Moves(e) && MovesOn(plan, w.cursors[t], v.cursors[t], v.clock, ScheduleOf(e))
  {
    if Subject(w, e) != Some(t) {
      EventLeavesOthers(plan, w, e, t);
    } else if Moves(e) {
      SubjectMoves(plan, w, e, t);
    } else {
      OthersStay(plan, w, e, t);
    }
  }

  /** Every other event leaves its lead's cursor alone, or ends it where it stands. */
  predicate EndsOrStays(c: Cursor, d: Cursor) {
    d.step == c.step && (d == c || d.state in {ProgressState.Replied, ProgressState.Skipped, Withdrawn})
  }

  lemma OthersStay(plan: Plan, w: World, e: Event, t: TargetId)
    requires Enabled(plan, w, e) && Subject(w, e) == Some(t) && !Moves(e) && t in w.cursors
    ensures var v := Apply(plan, w, e); t in v.cursors && EndsOrStays(w.cursors[t], v.cursors[t])
  {
    match e
    case InviteWithdrawn(_, restAllows, x) => WithdrawalStays(plan, w, t, restAllows, x);
    case DraftDecided(m, d, body, resume) => DecisionStays(w, m, d, body, resume);
    case _ =>
  }

  lemma WithdrawalStays(plan: Plan, w: World, t: TargetId, restAllows: bool, x: Exec)
    requires t in w.cursors
    ensures var v := WithdrawInviteNow(plan, w, t, restAllows, x); t in v.cursors && EndsOrStays(w.cursors[t], v.cursors[t])
  {
  }

  lemma DecisionStays(w: World, m: MessageId, d: ApprovalDecision, body: Body, resume: bool)
    requires m < |w.messages| && w.messages[m].target in w.cursors
    ensures var v, t := DecideDraft(w, m, d, body, resume), w.messages[m].target;
            t in v.cursors && EndsOrStays(w.cursors[t], v.cursors[t])
  {
  }

  /** A cursor that keeps its place: same step and, while still to be handled or approved, the same due time. */
  predicate StaysPut(c: Cursor, d: Cursor) {
    && d.step == c.step
    && (d.state in {InProgress, AwaitingApproval} ==> d.nextAt == c.nextAt && (d == c || c.state in {InProgress, AwaitingApproval}))
    && (d.state == c.state || d.state != NotStarted)
  }

  lemma GuardStaysPut(w: World, t: TargetId, kind: ActionType, i: StepInput)
    requires t in w.cursors && Guard(w, t, kind, i).Some?
    ensures var v := Guard(w, t, kind, i).value.w; t in v.cursors && v.clock == w.clock && StaysPut(w.cursors[t], v.cursors[t])
  {
    StoppingStaysPut(w, t, ProgressState.Replied);
    StoppingStaysPut(w, t, ProgressState.Skipped);
    var v := Guard(w, t, kind, i).value.w;
    assert || v == w || v == StopFunnel(w, t, ProgressState.Replied) || v == ProbeEffect(w, t, i.probe)
           || v == SetStage(StopFunnel(w, t, ProgressState.Skipped), t, Lost);
  }

  lemma StoppingStaysPut(w: World, t: TargetId, terminal: ProgressState)
    requires t in w.cursors && terminal in {ProgressState.Replied, ProgressState.Skipped}
    ensures var v := StopFunnel(w, t, terminal); t in v.cursors && v.clock == w.clock && StaysPut(w.cursors[t], v.cursors[t])
  {
  }

  lemma FireMovesOn(plan: Plan, w: World, t: TargetId, kind: ActionType, i: StepInput)
    requires t in w.cursors && w.cursors[t].state == InProgress
    ensures var v := Fire(plan, w, t, kind, i).w;
            && t in v.cursors && v.clock == w.clock
            && (StaysPut(w.cursors[t], v.cursors[t]) || MovesOn(plan, w.cursors[t], v.cursors[t], w.clock, i.schedule))
  {
    AdvanceMovesOn(plan, w.cursors[t], w.clock, i.schedule);
  }

  lemma StepMovesOn(plan: Plan, w: World, t: TargetId, i: StepInput)
    requires t in w.cursors && w.cursors[t].state == InProgress
    ensures var v := DispatchStep(plan, w, t, i).w;
            && t in v.cursors && v.clock == i.now
            && (StaysPut(w.cursors[t], v.cursors[t]) || MovesOn(plan, w.cursors[t], v.cursors[t], i.now, i.schedule))
  {
    var now := At(w, i.now);
    var c := now.cursors[t];
    var steps := plan.Steps(c.campaign);
    if c.step < |steps| && steps[c.step].kind.Act? {
      var kind := steps[c.step].kind.action;
      if Guard(now, t, kind, i).Some? {
        GuardStaysPut(now, t, kind, i);
      } else {
        FireMovesOn(plan, now, t, kind, i);
      }
    } else if c.step < |steps| && c.step + 1 < |steps| {
      DueIsByDelay(i.now, steps[c.step + 1].delaySeconds, i.schedule);
    }
  }

  lemma SendGuardStaysPut(w: World, m: MessageId, i: SendInput)
    requires m < |w.messages| && w.messages[m].target in w.cursors && SendGuard(w, m, i).Some?
    ensures var v, t := SendGuard(w, m, i).value, w.messages[m].target;
            t in v.cursors && v.clock == w.clock && StaysPut(w.cursors[t], v.cursors[t])
  {
  }

  lemma SendResultMovesOn(plan: Plan, w: World, m: MessageId, i: SendInput)
    requires m < |w.messages| && w.messages[m].target in w.cursors
    ensures var v, t := SendResult(plan, w, m, i), w.messages[m].target;
            && t in v.cursors && v.clock == w.clock
            && (StaysPut(w.cursors[t], v.cursors[t]) || MovesOn(plan, w.cursors[t], v.cursors[t], w.clock, i.schedule))
  {
    AdvanceMovesOn(plan, w.cursors[w.messages[m].target], w.clock, i.schedule);
  }

  lemma SendMovesOn(plan: Plan, w: World, m: MessageId, i: SendInput)
    requires m < |w.messages| && w.messages[m].target in w.cursors
    ensures var v, t := SendApproved(plan, w, m, i), w.messages[m].target;
            && t in v.cursors && v.clock == i.now
            && (StaysPut(w.cursors[t], v.cursors[t]) || MovesOn(plan, w.cursors[t], v.cursors[t], i.now, i.schedule))
  {
    var now := At(w, i.now);
    if SendGuard(now, m, i).Some? {
      SendGuardStaysPut(now, m, i);
    }
    SendResultMovesOn(plan, now, m, i);
  }

  // ----- nothing goes out before it

  /** Waiting for step k with its due time, or past it, or done. */
  predicate WaitsAt(c: Cursor, k: nat, due: int) {
    k <= c.step && c.state != NotStarted && (c.step == k && c.state in {InProgress, AwaitingApproval} ==> c.nextAt == Some(due))
  }

  ghost predicate Waits(w: World, t: TargetId, k: nat, due: int) {
    t in w.cursors && WaitsAt(w.cursors[t], k, due)
  }

  lemma WaitsOn(plan: Plan, w: World, e: Event, v: World, t: TargetId, k: nat, due: int)
    requires Enabled(plan, w, e) && v == Apply(plan, w, e) && Waits(w, t, k, due)
    ensures Waits(v, t, k, due)
  {
    if Subject(w, e) != Some(t) {
      EventLeavesOthers(plan, w, e, t);
    } else if Moves(e) {
      SubjectMoves(plan, w, e, t);
      MovedStillWaits(plan, w.cursors[t], v.cursors[t], v.clock, ScheduleOf(e), k, due);
    } else {
      OthersStay(plan, w, e, t);
    }
  }

  lemma MovedStillWaits(plan: Plan, c: Cursor, d: Cursor, now: int, s: Schedule, k: nat, due: int)
    requires WaitsAt(c, k, due) && (StaysPut(c, d) || MovesOn(plan, c, d, now, s))
    ensures WaitsAt(d, k, due)
  {
  }

  lemma SubjectMoves(plan: Plan, w: World, e: Event, t: TargetId)
    requires Enabled(plan, w, e) && Subject(w, e) == Some(t) && Moves(e) && t in w.cursors
    ensures var v := Apply(plan, w, e);
            && t in v.cursors
            && (StaysPut(w.cursors[t], v.cursors[t]) || MovesOn(plan, w.cursors[t], v.cursors[t], v.clock, ScheduleOf(e)))
  {
    match e
    case Stepped(_, i) => StepMovesOn(plan, w, t, i);
    case SendTried(m, i) => SendMovesOn(plan, w, m, i);
    case InviteAccepted(_, now, s) => AdvanceMovesOn(plan, w.cursors[t], now, s);
  }

  predicate DueAt(c: Cursor, now: int) {
    c.nextAt.None? || c.nextAt.value <= now
  }

  /** Only a message is ever drafted ahead of its time. */
  ghost predicate DraftedWhenDue(w: World) {
    forall m :: 0 <= m < |w.messages| && Live(w.messages[m].status) && w.messages[m].kind != ActionType.Message ==>
      w.messages[m].target in w.cursors ==> DueAt(w.cursors[w.messages[m].target], w.clock)
  }

  /** A cursor that stays parked for approval keeps its due time. */
  lemma ParkedKeepsDue(plan: Plan, w: World, e: Event, t: TargetId)
    requires Enabled(plan, w, e) && t in w.cursors && w.cursors[t].state == AwaitingApproval
    ensures var v := Apply(plan, w, e);
            t in v.cursors && (v.cursors[t].state == AwaitingApproval ==> v.cursors[t].nextAt == w.cursors[t].nextAt)
  {
    if Subject(w, e) != Some(t) {
      EventLeavesOthers(plan, w, e, t);
    } else if Moves(e) {
      SubjectMoves(plan, w, e, t);
    } else {
      OthersStay(plan, w, e, t);
    }
  }

  /** A step that drafts something other than a message stood on a cursor that was due. */
  lemma NewDraftIsDue(plan: Plan, w: World, e: Event, v: World)
    requires Enabled(plan, w, e) && v == Apply(plan, w, e) && AddsOne(w.log, v.log) && v.log[|w.log|].Drafted?
    ensures |v.messages| == |w.messages| + 1 && v.messages[..|w.messages|] == w.messages
    ensures var msg := v.messages[|w.messages|];
            msg.target in v.cursors && (msg.kind != ActionType.Message ==> DueAt(v.cursors[msg.target], v.clock))
  {
    DraftsOnlyWhereAskedFor(plan, w, e, v);
    DraftIsOfItsStep(plan, w, e.t, e.step);
  }

  lemma DraftIsOfItsStep(plan: Plan, w: World, t: TargetId, i: StepInput)
    requires t in w.cursors && w.cursors[t].state == InProgress
    requires var v := DispatchStep(plan, w, t, i).w; AddsOne(w.log, v.log) && v.log[|w.log|].Drafted?
    ensures var v := DispatchStep(plan, w, t, i).w;
            v.clock == i.now && AsksFor(plan, w.cursors[t], v.log[|w.log|].kind)
  {
    StepMovesOn(plan, w, t, i);
    var c := w.cursors[t];
    var steps := plan.Steps(c.campaign);
    if c.step < |steps| && steps[c.step].kind.Act? {
      StepActsIff(plan, w, t, steps[c.step].kind.action, i);
    }
  }

  lemma EventDraftsWhenDue(plan: Plan, warm: set<TargetId>, w: World, e: Event, v: World)
    requires Inv(plan, warm, w) && Inv(plan, warm, v) && Forward(plan, w, v)
    requires Enabled(plan, w, e) && v == Apply(plan, w, e) && DraftedWhenDue(w)
    ensures DraftedWhenDue(v)
  {
    EventLogsOne(plan, w, e);
    forall m | 0 <= m < |v.messages| && Live(v.messages[m].status) && v.messages[m].kind != ActionType.Message
               && v.messages[m].target in v.cursors
      ensures DueAt(v.cursors[v.messages[m].target], v.clock)
    {
      if m < |w.messages| {
        OldDraftStaysDue(plan, warm, w, e, v, m);
      } else {
        NewDraftIsDue(plan, w, e, v);
      }
    }
  }

  lemma OldDraftStaysDue(plan: Plan, warm: set<TargetId>, w: World, e: Event, v: World, m: MessageId)
    requires Inv(plan, warm, w) && Inv(plan, warm, v) && Forward(plan, w, v)
    requires Enabled(plan, w, e) && v == Apply(plan, w, e) && DraftedWhenDue(w)
    requires m < |w.messages| && m < |v.messages| && Live(v.messages[m].status) && v.messages[m].kind != ActionType.Message
    ensures v.messages[m].target in v.cursors && DueAt(v.cursors[v.messages[m].target], v.clock)
  {
    assert MessageForward(w.messages[m], v.messages[m]);
    assert LiveIsParked(plan, v, m) && LiveIsParked(plan, w, m);
    ParkedKeepsDue(plan, w, e, w.messages[m].target);
  }

  lemma {:induction false} RunDraftsWhenDue(plan: Plan, warm: set<TargetId>, worlds: seq<World>, events: seq<Event>, n: nat)
    requires History(plan, warm, worlds, events) && n < |worlds|
    ensures DraftedWhenDue(worlds[n])
  {
    if n > 0 {
      var k := n - 1;
      RunDraftsWhenDue(plan, warm, worlds, events, k);
      HistoryKept(plan, warm, worlds, events, k, k + 1);
      EventDraftsWhenDue(plan, warm, worlds[k], events[k], worlds[k + 1]);
    }
  }

  /** Entry i tries to deliver step k of lead t: directly, or through the row drafted for it. */
  ghost predicate Attempts(log: seq<Entry>, i: nat, t: TargetId, k: nat) {
    && i < |log| && log[i].Drove? && log[i].target == t
    && match log[i].via
       case Direct(_, step) => step == k
       case ByApproval(m, _) => exists d :: 0 <= d < |log| && DraftOf(log[d], t, k, m)
       case Operator(_) => false
  }

  lemma AttemptIsDue(plan: Plan, warm: set<TargetId>, w: World, e: Event, v: World, t: TargetId, k: nat, due: int)
    requires Inv(plan, warm, w) && DraftedWhenDue(w) && Waits(w, t, k, due)
    requires Enabled(plan, w, e) && v == Apply(plan, w, e) && LogsOne(w, v, e) && |w.log| < |v.log|
    ensures |v.log| == |w.log| + 1
    ensures Respects(v.log, |w.log|, t, k, due)
  {
    if Attempts(v.log, |w.log|, t, k) {
      AttemptFits(w, e, v, t, k);
      if e.Stepped? {
        DirectIsDue(plan, w, t, e.step);
      } else {
        SendIsDue(plan, warm, w, e.m, e.send, k, due);
      }
    }
  }

  /** Only a step on the lead, or a send of a row of it, tries anything, and notes the instant. */
  lemma AttemptFits(w: World, e: Event, v: World, t: TargetId, k: nat)
    requires LogsOne(w, v, e) && AddsOne(w.log, v.log) && Attempts(v.log, |w.log|, t, k)
    ensures v.log[|w.log|].at == v.clock
    ensures (e.Stepped? && e.t == t && t in w.cursors && w.cursors[t].step == k)
            || (e.SendTried? && e.m < |w.messages| && w.messages[e.m].target == t
                && v.log[|w.log|].via.ByApproval? && v.log[|w.log|].via.msg == e.m)
  {
  }

  lemma DirectIsDue(plan: Plan, w: World, t: TargetId, i: StepInput)
    requires t in w.cursors && MayStep(plan, w, t, i.now)
    requires var v := DispatchStep(plan, w, t, i).w; AddsOne(w.log, v.log) && v.log[|w.log|].Drove?
    ensures DueAt(w.cursors[t], i.now) && DispatchStep(plan, w, t, i).w.clock == i.now
  {
    StepMovesOn(plan, w, t, i);
    var c := w.cursors[t];
    var steps := plan.Steps(c.campaign);
    if c.step < |steps| && steps[c.step].kind.Act? {
      StepActsIff(plan, w, t, steps[c.step].kind.action, i);
    }
  }

  lemma SendIsDue(plan: Plan, warm: set<TargetId>, w: World, m: MessageId, i: SendInput, k: nat, due: int)
    requires Inv(plan, warm, w) && DraftedWhenDue(w) && m < |w.messages| && w.messages[m].status == Approved && w.clock <= i.now
    requires Waits(w, w.messages[m].target, k, due)
    requires var v := SendApproved(plan, w, m, i);
             AddsOne(w.log, v.log) && v.log[|w.log|].Drove? && Attempts(v.log, |w.log|, w.messages[m].target, k)
             && v.log[|w.log|].via.ByApproval? && v.log[|w.log|].via.msg == m
    ensures due <= i.now && SendApproved(plan, w, m, i).clock == i.now
  {
    assert LiveIsParked(plan, w, m);
    SendMovesOn(plan, w, m, i);
    assert w.cursors[w.messages[m].target].step == k by {
      DraftedForItsStep(plan, warm, w, SendApproved(plan, w, m, i).log, m, k);
    }
    assert w.messages[m].kind == ActionType.Message ==> DueAt(w.cursors[w.messages[m].target], i.now) by {
      SendContactIsLicensed(plan, w, m, i);
    }
  }

  /** A parked row's draft was made for the step its cursor stands on. */
  lemma DraftedForItsStep(plan: Plan, warm: set<TargetId>, w: World, more: seq<Entry>, m: MessageId, k: nat)
    requires LogOk(warm, w) && m < |w.messages| && LiveIsParked(plan, w, m)
    requires AddsOne(w.log, more) && more[|w.log|].Drove? && more[|w.log|].via.ByApproval? && more[|w.log|].via.msg == m
    requires Attempts(more, |w.log|, w.messages[m].target, k)
    ensures w.cursors[w.messages[m].target].step == k
  {
    var t := w.messages[m].target;
    var d :| 0 <= d < |more| && DraftOf(more[d], t, k, m);
    assert more[d] == w.log[d];
    OneDraftPerRow(warm, w, d, Drafted(t, w.cursors[t].step, w.messages[m].kind, m));
  }

  /** A row was drafted once. */
  lemma OneDraftPerRow(warm: set<TargetId>, w: World, d: nat, e: Entry)
    requires LogOk(warm, w) && d < |w.log| && w.log[d].Drafted? && e.Drafted? && e in w.log && e.msg == w.log[d].msg
    ensures e == w.log[d]
  {
    var j :| 0 <= j < |w.log| && w.log[j] == e;
    assert j < d ==> Distinct(w.log[j], w.log[d]);
    assert d < j ==> Distinct(w.log[d], w.log[j]);
  }

  /** Entry i, if it tries step k of lead t, does so no earlier than its due time. */
  ghost predicate Respects(log: seq<Entry>, i: nat, t: TargetId, k: nat, due: int) {
    Attempts(log, i, t, k) ==> due <= log[i].at
  }

  /** From the state it waits in, nothing tries step k of lead t before its due time. */
  lemma {:induction false} NothingWhileWaiting(plan: Plan, warm: set<TargetId>, worlds: seq<World>, events: seq<Event>, a: nat, b: nat,
                                              t: TargetId, k: nat, i: nat, due: int)
    requires History(plan, warm, worlds, events) && a <= b < |worlds| && Waits(worlds[a], t, k, due) && |worlds[a].log| <= i
    ensures Waits(worlds[b], t, k, due) && Respects(worlds[b].log, i, t, k, due)
    decreases b
  {
    if a < b {
      var n := b - 1;
      NothingWhileWaiting(plan, warm, worlds, events, a, n, t, k, i, due);
      NextWaits(plan, warm, worlds, events, n, t, k, i, due);
    }
  }

  lemma NextWaits(plan: Plan, warm: set<TargetId>, worlds: seq<World>, events: seq<Event>, n: nat, t: TargetId, k: nat, i: nat, due: int)
    requires History(plan, warm, worlds, events) && n < |events|
    requires Waits(worlds[n], t, k, due) && Respects(worlds[n].log, i, t, k, due)
    ensures Waits(worlds[n + 1], t, k, due) && Respects(worlds[n + 1].log, i, t, k, due)
  {
    HistoryKept(plan, warm, worlds, events, n, n + 1);
    RunDraftsWhenDue(plan, warm, worlds, events, n);
    WaitsOn(plan, worlds[n], events[n], worlds[n + 1], t, k, due);
    assert LogsOne(worlds[n], worlds[n + 1], events[n]) by {
      EventLogsOne(plan, worlds[n], events[n]);
    }
    if i < |worlds[n].log| {
      OldAttempt(warm, worlds[n], events[n], worlds[n + 1], t, k, i, due);
    } else if i < |worlds[n + 1].log| {
      AttemptIsDue(plan, warm, worlds[n], events[n], worlds[n + 1], t, k, due);
    }
  }

  lemma OldAttempt(warm: set<TargetId>, w: World, e: Event, v: World, t: TargetId, k: nat, i: nat, due: int)
    requires LogOk(warm, w) && LogsOne(w, v, e) && w.log <= v.log && i < |w.log| && Respects(w.log, i, t, k, due)
    ensures Respects(v.log, i, t, k, due)
  {
    if Attempts(v.log, i, t, k) {
      assert v.log[i] == w.log[i];
      SignedRowExists(warm, w, i);
      AttemptWasThere(w, e, v, t, k, i);
    }
  }

  lemma SignedRowExists(warm: set<TargetId>, w: World, i: nat)
    requires LogOk(warm, w) && i < |w.log| && w.log[i].Drove?
    ensures w.log[i].via.ByApproval? ==> w.log[i].via.msg < |w.messages|
  {
    assert EntryOk(warm, w, i);
    if w.log[i].via.ByApproval? {
      var j :| 0 <= j < i && w.log[j].Decided? && w.log[j].msg == w.log[i].via.msg;
      assert EntryOk(warm, w, j);
    }
  }

  /** An attempt in the log was one when it was made: its draft came before it. */
  lemma AttemptWasThere(w: World, e: Event, v: World, t: TargetId, k: nat, i: nat)
    requires LogsOne(w, v, e) && w.log <= v.log && i < |w.log| && Attempts(v.log, i, t, k)
    requires w.log[i].via.ByApproval? ==> w.log[i].via.msg < |w.messages|
    ensures Attempts(w.log, i, t, k)
  {
    assert v.log[i] == w.log[i];
    if w.log[i].via.ByApproval? {
      var d :| 0 <= d < |v.log| && DraftOf(v.log[d], t, k, w.log[i].via.msg);
      assert d < |w.log|;
      assert v.log[d] == w.log[d];
    }
  }

  /** A lead moved onto a step that has a due time: until then that step is neither driven nor
      sent, by any event of the run. */
  lemma NothingBeforeItsTime(plan: Plan, warm: set<TargetId>, worlds: seq<World>, events: seq<Event>, a: nat, b: nat,
                             t: TargetId, i: nat)
    requires History(plan, warm, worlds, events) && a < b < |worlds|
    requires t in worlds[a].cursors && t in worlds[a + 1].cursors && worlds[a + 1].cursors[t].step != worlds[a].cursors[t].step
    requires worlds[a + 1].cursors[t].nextAt.Some?
    requires |worlds[a + 1].log| <= i && Attempts(worlds[b].log, i, t, worlds[a + 1].cursors[t].step)
    ensures Moves(events[a]) && MovesOn(plan, worlds[a].cursors[t], worlds[a + 1].cursors[t], worlds[a + 1].clock, ScheduleOf(events[a]))
    ensures worlds[a + 1].cursors[t].nextAt.value <= worlds[b].log[i].at
  {
    var k, due := worlds[a + 1].cursors[t].step, worlds[a + 1].cursors[t].nextAt.value;
    MovedOnByItsDelay(plan, worlds[a], events[a], worlds[a + 1], t);
    NothingWhileWaiting(plan, warm, worlds, events, a + 1, b, t, k, i, due);
  }
}
