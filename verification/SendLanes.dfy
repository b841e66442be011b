/** Giving up on approved sends: a row is tried at most five times, and a lane that
fails for everybody stops before it burns through the queue. */
module SendLanes {
  import opened Actions
  import opened Sets
  import opened FunnelWorld
  import opened FunnelLaws
  import opened FunnelRuns
  import opened FunnelEntries
  import opened FunnelFrames
  import opened FunnelTheorems

  // ----- at most five failed executions per row

  predicate FailedSend(e: Entry, m: MessageId) {
    e.Drove? && e.via.ByApproval? && e.via.msg == m && e.result == ActionResult.Failed
  }

  /** Recorded failed executions of one approved row. */
  function FailedVia(log: seq<Entry>, m: MessageId): nat {
    if log == [] then 0
    else FailedVia(log[..|log| - 1], m) + if FailedSend(log[|log| - 1], m) then 1 else 0
  }

  /** Each of them is among the failures the give-up cap counts. */
  lemma {:induction false} CapSeesEveryFailure(warm: set<TargetId>, w: World, m: MessageId, n: nat)
    requires LogOk(warm, w) && m < |w.messages| && n <= |w.log|
    ensures FailedVia(w.log[..n], m) <= CountFailed(w.log[..n], w.messages[m].target, w.messages[m].kind, w.messages[m].createdAt)
  {
    if n > 0 {
      CapSeesEveryFailure(warm, w, m, n - 1);
      assert w.log[..n][..n - 1] == w.log[..n - 1];
      assert EntryOk(warm, w, n - 1);
    }
  }

  lemma NewFailure(log: seq<Entry>, more: seq<Entry>, m: MessageId)
    requires AddsOne(log, more)
    ensures FailedVia(more, m) == FailedVia(log, m) + if FailedSend(more[|log|], m) then 1 else 0
  {
    assert more[..|more| - 1] == log;
  }

  lemma EventFailsAtMostFive(plan: Plan, warm: set<TargetId>, w: World, e: Event, v: World, m: MessageId)
    requires Inv(plan, warm, w) && Enabled(plan, w, e) && v == Apply(plan, w, e)
    requires FailedVia(w.log, m) <= MAX_SEND_ATTEMPTS
    ensures FailedVia(v.log, m) <= MAX_SEND_ATTEMPTS
  {
    EventLogsOne(plan, w, e);
    if v.log != w.log {
      NewFailure(w.log, v.log, m);
      if FailedSend(v.log[|w.log|], m) {
        CapSeesEveryFailure(warm, w, m, |w.log|);
        assert w.log[..|w.log|] == w.log;
      }
    }
  }

  /** No approved row ever accounts for more than five recorded failed executions. */
  lemma {:induction false} AtMostFiveFailures(plan: Plan, warm: set<TargetId>, worlds: seq<World>, events: seq<Event>, n: nat, m: MessageId)
    requires History(plan, warm, worlds, events) && n < |worlds|
    ensures FailedVia(worlds[n].log, m) <= 5
  {
    if n > 0 {
      AtMostFiveFailures(plan, warm, worlds, events, n - 1, m);
      HistoryKept(plan, warm, worlds, events, n - 1, n - 1);
      EventFailsAtMostFive(plan, warm, worlds[n - 1], events[n - 1], worlds[n], m);
    }
  }

  // ----- and never given up before five

  /** The failed executions for a lead and type at or after an instant, as entries of the log. */
  function Failures(log: seq<Entry>, t: TargetId, kind: ActionType, since: int): set<nat> {
    set i: nat | i < |log| && FailsFor(log[i], t, kind, since)
  }

  predicate FailsFor(e: Entry, t: TargetId, kind: ActionType, since: int) {
    e.Drove? && e.target == t && e.kind == kind && e.result == ActionResult.Failed && since <= e.at
  }

  lemma {:induction false} CountIsFailures(log: seq<Entry>, t: TargetId, kind: ActionType, since: int)
    ensures CountFailed(log, t, kind, since) == |Failures(log, t, kind, since)|
  {
    if log == [] {
      assert Failures(log, t, kind, since) == {};
    } else {
      var n: nat := |log| - 1;
      CountIsFailures(log[..n], t, kind, since);
      var before, after := Failures(log[..n], t, kind, since), Failures(log, t, kind, since);
      forall i: nat ensures i in after <==> i in before || (i == n && FailsFor(log[n], t, kind, since)) {
        assert i < n ==> log[..n][i] == log[i];
      }
      assert after == before + if FailsFor(log[n], t, kind, since) then {n} else {};
    }
  }

  /** No success of the lane in the last 24 hours, and failures for three different leads. */
  ghost predicate LaneDown(log: seq<Entry>, a: AccountId, kind: ActionType, now: int) {
    && (forall k :: 0 <= k < |log| ==>
          !(log[k].Drove? && log[k].account == a && log[k].kind == kind && log[k].result == Success && now - 86_400_000 <= log[k].at))
    && |FailingLeads(log, a, kind, now - 86_400_000)| >= 3
  }

  function FailingLeads(log: seq<Entry>, a: AccountId, kind: ActionType, since: int): set<TargetId> {
    set k | 0 <= k < |log| && log[k].Drove? && log[k].account == a && log[k].kind == kind
            && log[k].result == ActionResult.Failed && since <= log[k].at :: log[k].target
  }

  lemma LaneDownIff(log: seq<Entry>, a: AccountId, kind: ActionType, now: int)
    ensures LaneIsSystemicallyFailing(log, a, kind, now) <==> LaneDown(log, a, kind, now)
  {
    var since := now - 86_400_000;
    assert FailedTargets(log, a, kind, since) == FailingLeads(log, a, kind, since);
    if LaneSucceeded(log, a, kind, since) {
      var k :| 0 <= k < |log| && LaneRow(log[k], a, kind, Success, since);
    } else {
      forall k | 0 <= k < |log|
        ensures !(log[k].Drove? && log[k].account == a && log[k].kind == kind && log[k].result == Success && since <= log[k].at)
      {
        assert !LaneRow(log[k], a, kind, Success, since);
      }
    }
  }

  /** Entry i gave a row up after five failures for its lead and type since the row was made, and
      not while the lane was down. */
  ghost predicate GivenUpInTime(w: World, i: nat)
    requires i < |w.log| && w.log[i].Abandoned?
  {
    var e := w.log[i];
    && e.msg < |w.messages|
    && |Failures(w.log[..i], e.target, e.kind, w.messages[e.msg].createdAt)| >= 5
    && !LaneDown(w.log[..i], e.account, e.kind, e.at)
  }

  lemma GivenUpNow(plan: Plan, w: World, e: Event, v: World)
    requires Enabled(plan, w, e) && v == Apply(plan, w, e) && LogsOne(w, v, e) && Forward(plan, w, v)
    requires AddsOne(w.log, v.log) && v.log[|w.log|].Abandoned?
    ensures GivenUpInTime(v, |w.log|)
  {
    var n := v.log[|w.log|];
    assert MessageForward(w.messages[n.msg], v.messages[n.msg]);
    CountIsFailures(w.log, n.target, n.kind, w.messages[n.msg].createdAt);
    LaneDownIff(w.log, n.account, n.kind, n.at);
    assert v.log[..|w.log|] == w.log;
  }

  lemma GivenUpStays(plan: Plan, w: World, v: World, i: nat)
    requires Forward(plan, w, v) && i < |w.log| && w.log[i].Abandoned? && GivenUpInTime(w, i)
    ensures v.log[i] == w.log[i] && GivenUpInTime(v, i)
  {
    assert v.log[..i] == w.log[..i];
    assert MessageForward(w.messages[w.log[i].msg], v.messages[w.log[i].msg]);
  }

  /** No row is abandoned before five recorded failures of its own lead and type, nor while its
      lane is down. */
  lemma {:induction false} NoneAbandonedEarly(plan: Plan, warm: set<TargetId>, worlds: seq<World>, events: seq<Event>, n: nat, i: nat)
    requires History(plan, warm, worlds, events) && n < |worlds| && i < |worlds[n].log| && worlds[n].log[i].Abandoned?
    ensures GivenUpInTime(worlds[n], i)
  {
    if n > 0 {
      var k := n - 1;
      HistoryKept(plan, warm, worlds, events, k, k + 1);
      assert LogsOne(worlds[k], worlds[k + 1], events[k]) by {
        EventLogsOne(plan, worlds[k], events[k]);
      }
      if i < |worlds[k].log| {
        assert worlds[k].log[i] == worlds[k + 1].log[i];
        NoneAbandonedEarly(plan, warm, worlds, events, k, i);
        GivenUpStays(plan, worlds[k], worlds[k + 1], i);
      } else {
        GivenUpNow(plan, worlds[k], events[k], worlds[k + 1]);
      }
    }
  }

  // ----- at most two leads abandoned before a lane halts

  /** Every lead is always acted on by its cursor's account. */
  ghost predicate OneAccount(w: World) {
    && (forall m :: 0 <= m < |w.messages| ==>
          w.messages[m].target in w.cursors && w.messages[m].account == w.cursors[w.messages[m].target].account)
    && (forall i :: 0 <= i < |w.log| && w.log[i].Drove? ==>
          w.log[i].target in w.cursors && w.log[i].account == w.cursors[w.log[i].target].account)
  }

  lemma AccountsCarryOver(plan: Plan, w: World, v: World, e: Event)
    requires Forward(plan, w, v) && OneAccount(w) && LogsOne(w, v, e)
    ensures OneAccount(v)
  {
    forall m | 0 <= m < |v.messages|
      ensures v.messages[m].target in v.cursors && v.messages[m].account == v.cursors[v.messages[m].target].account
    {
      if m < |w.messages| {
        assert MessageForward(w.messages[m], v.messages[m]);
      }
    }
    forall i | 0 <= i < |v.log| && v.log[i].Drove?
      ensures v.log[i].target in v.cursors && v.log[i].account == v.cursors[v.log[i].target].account
    {
      if i < |w.log| {
        assert v.log[i] == w.log[i];
      }
    }
  }

  /** Entry i abandons a lead that had failed in its lane, while the lane still looked healthy. */
  ghost predicate AbandonedFairly(log: seq<Entry>, i: nat)
    requires i < |log| && log[i].Abandoned?
  {
    var e := log[i];
    && !LaneIsSystemicallyFailing(log[..i], e.account, e.kind, e.at)
    && exists j :: 0 <= j < i && FailedFor(log[j], e)
  }

  predicate FailedFor(f: Entry, e: Entry)
    requires e.Abandoned?
  {
    f.Drove? && f.target == e.target && f.account == e.account && f.kind == e.kind && f.result == ActionResult.Failed
  }

  /** The instants in the log never precede the start, and never run ahead of the clock. */
  ghost predicate LaneLogOk(start: int, w: World) {
    forall i :: 0 <= i < |w.log| ==>
      && (w.log[i].Drove? ==> start <= w.log[i].at)
      && (w.log[i].Abandoned? ==> w.log[i].at <= w.clock && AbandonedFairly(w.log, i))
  }

  /** A positive count names a failed row. */
  lemma {:induction false} CountedFailure(log: seq<Entry>, t: TargetId, kind: ActionType, since: int) returns (j: nat)
    requires CountFailed(log, t, kind, since) > 0
    ensures j < |log| && log[j].Drove? && log[j].target == t && log[j].kind == kind && log[j].result == ActionResult.Failed
  {
    var e := log[|log| - 1];
    if e.Drove? && e.target == t && e.kind == kind && e.result == ActionResult.Failed {
      j := |log| - 1;
    } else {
      j := CountedFailure(log[..|log| - 1], t, kind, since);
    }
  }

  lemma FairlyNow(w: World, v: World, e: Event)
    requires OneAccount(w) && LogsOne(w, v, e) && AddsOne(w.log, v.log) && v.log[|w.log|].Abandoned?
    ensures AbandonedFairly(v.log, |w.log|) && v.log[|w.log|].at == v.clock
  {
    var m := e.m;
    var msg := w.messages[m];
    var j := CountedFailure(w.log, msg.target, msg.kind, msg.createdAt);
    assert v.log[j] == v.log[..|w.log|][j];
    assert FailedFor(v.log[j], v.log[|w.log|]);
  }

  lemma FairlyKept(log: seq<Entry>, more: seq<Entry>, i: nat)
    requires log <= more && i < |log| && log[i].Abandoned? && AbandonedFairly(log, i)
    ensures AbandonedFairly(more, i)
  {
    assert more[..i] == log[..i];
    var j :| 0 <= j < i && FailedFor(log[j], log[i]);
    assert FailedFor(more[j], more[i]);
  }

  lemma LaneLogCarriesOver(plan: Plan, start: int, w: World, v: World, e: Event)
    requires Forward(plan, w, v) && OneAccount(w) && LogsOne(w, v, e) && LaneLogOk(start, w) && start <= w.clock
    requires AddsOne(w.log, v.log) && v.log[|w.log|].Drove? ==> v.log[|w.log|].at == v.clock
    ensures LaneLogOk(start, v)
  {
    forall i | 0 <= i < |v.log|
      ensures (v.log[i].Drove? ==> start <= v.log[i].at)
      ensures (v.log[i].Abandoned? ==> v.log[i].at <= v.clock && AbandonedFairly(v.log, i))
    {
      if i < |w.log| {
        assert v.log[i] == w.log[i];
        if v.log[i].Abandoned? {
          FairlyKept(w.log, v.log, i);
        }
      } else if v.log[i].Abandoned? {
        FairlyNow(w, v, e);
      }
    }
  }

  lemma CallsAreNow(w: World, v: World, e: Event)
    requires LogsOne(w, v, e) && AddsOne(w.log, v.log) && v.log[|w.log|].Drove?
    ensures v.log[|w.log|].at == v.clock
  {
  }

  lemma {:induction false} HistoryLanes(plan: Plan, warm: set<TargetId>, worlds: seq<World>, events: seq<Event>, n: nat)
    requires History(plan, warm, worlds, events) && n < |worlds|
    ensures OneAccount(worlds[n]) && LaneLogOk(worlds[0].clock, worlds[n]) && worlds[0].clock <= worlds[n].clock
  {
    if n > 0 {
      HistoryLanes(plan, warm, worlds, events, n - 1);
      NextLanes(plan, warm, worlds, events, n - 1);
    }
  }

  lemma NextLanes(plan: Plan, warm: set<TargetId>, worlds: seq<World>, events: seq<Event>, n: nat)
    requires History(plan, warm, worlds, events) && n < |events|
    requires OneAccount(worlds[n]) && LaneLogOk(worlds[0].clock, worlds[n]) && worlds[0].clock <= worlds[n].clock
    ensures OneAccount(worlds[n + 1]) && LaneLogOk(worlds[0].clock, worlds[n + 1]) && worlds[0].clock <= worlds[n + 1].clock
  {
    var w, v, e := worlds[n], worlds[n + 1], events[n];
    assert Forward(plan, w, v) by {
      HistoryKept(plan, warm, worlds, events, n, n + 1);
    }
    assert LogsOne(w, v, e) by {
      EventLogsOne(plan, w, e);
    }
    AccountsCarryOver(plan, w, v, e);
    if AddsOne(w.log, v.log) && v.log[|w.log|].Drove? {
      CallsAreNow(w, v, e);
    }
    LaneLogCarriesOver(plan, worlds[0].clock, w, v, e);
  }

  predicate Abandons(e: Entry, a: AccountId, kind: ActionType) {
    e.Abandoned? && e.account == a && e.kind == kind
  }

  /** The leads a lane has given up on. */
  function AbandonedLeads(log: seq<Entry>, a: AccountId, kind: ActionType): set<TargetId> {
    set k | 0 <= k < |log| && Abandons(log[k], a, kind) :: log[k].target
  }

  /** The last entry that abandons a lead in the lane. */
  ghost predicate LastAbandonment(log: seq<Entry>, a: AccountId, kind: ActionType, i: nat) {
    i < |log| && Abandons(log[i], a, kind) && forall k :: i < k < |log| ==> !Abandons(log[k], a, kind)
  }

  lemma {:induction false} SomeLast(log: seq<Entry>, a: AccountId, kind: ActionType, k: nat) returns (i: nat)
    requires k < |log| && Abandons(log[k], a, kind)
    ensures LastAbandonment(log, a, kind, i)
    decreases |log| - k
  {
    if later :| k < later < |log| && Abandons(log[later], a, kind) {
      i := SomeLast(log, a, kind, later);
    } else {
      i := k;
    }
  }

  /** By the last abandonment, every abandoned lead of the lane counts among its failed ones. */
  lemma AbandonedAmongFailed(start: int, w: World, a: AccountId, kind: ActionType, i: nat, since: int)
    requires LaneLogOk(start, w) && LastAbandonment(w.log, a, kind, i) && since <= start
    ensures AbandonedLeads(w.log, a, kind) <= FailedTargets(w.log[..i], a, kind, since)
  {
    var before := w.log[..i];
    forall t | t in AbandonedLeads(w.log, a, kind) ensures t in FailedTargets(before, a, kind, since) {
      var k :| 0 <= k < |w.log| && Abandons(w.log[k], a, kind) && w.log[k].target == t;
      assert k <= i && AbandonedFairly(w.log, k);
      var j :| 0 <= j < k && FailedFor(w.log[j], w.log[k]);
      assert before[j] == w.log[j];
      assert LaneRow(before[j], a, kind, ActionResult.Failed, since);
    }
  }

  /** In a run of at most a day whose lane never succeeded, at most two distinct leads
      are abandoned; every other row of the lane is still there to send. */
  lemma AtMostTwoAbandoned(plan: Plan, warm: set<TargetId>, worlds: seq<World>, events: seq<Event>, n: nat, a: AccountId, kind: ActionType)
    requires History(plan, warm, worlds, events) && n < |worlds|
    requires worlds[n].clock <= worlds[0].clock + 24 * 3_600_000
    requires forall i :: 0 <= i < |worlds[n].log| ==>
               var e := worlds[n].log[i]; !(e.Drove? && e.account == a && e.kind == kind && e.result == Success)
    ensures |AbandonedLeads(worlds[n].log, a, kind)| <= 2
  {
    HistoryLanes(plan, warm, worlds, events, n);
    FewAbandoned(worlds[0].clock, worlds[n], a, kind);
  }

  lemma FewAbandoned(start: int, w: World, a: AccountId, kind: ActionType)
    requires LaneLogOk(start, w) && w.clock <= start + LANE_HEALTH_WINDOW_MS
    requires forall i :: 0 <= i < |w.log| ==> !LaneRow(w.log[i], a, kind, Success, start)
    ensures |AbandonedLeads(w.log, a, kind)| < SYSTEMIC_FAILURE_TARGETS
  {
    if AbandonedLeads(w.log, a, kind) != {} {
      var t :| t in AbandonedLeads(w.log, a, kind);
      var k :| 0 <= k < |w.log| && Abandons(w.log[k], a, kind) && w.log[k].target == t;
      var i := SomeLast(w.log, a, kind, k);
      LastWasFair(start, w, a, kind, i);
    }
  }

  /** When the last lead was abandoned, fewer than three had failed. */
  lemma LastWasFair(start: int, w: World, a: AccountId, kind: ActionType, i: nat)
    requires LaneLogOk(start, w) && w.clock <= start + LANE_HEALTH_WINDOW_MS && LastAbandonment(w.log, a, kind, i)
    requires forall k :: 0 <= k < |w.log| ==> !LaneRow(w.log[k], a, kind, Success, start)
    ensures |AbandonedLeads(w.log, a, kind)| < SYSTEMIC_FAILURE_TARGETS
  {
    var since := w.log[i].at - LANE_HEALTH_WINDOW_MS;
    assert AbandonedFairly(w.log, i);
    AbandonedAmongFailed(start, w, a, kind, i, since);
    forall k | 0 <= k < i ensures !LaneRow(w.log[..i][k], a, kind, Success, since) {
      assert w.log[..i][k] == w.log[k];
    }
    SubsetIsSmaller(AbandonedLeads(w.log, a, kind), FailedTargets(w.log[..i], a, kind, since));
  }

  /** A halted lane costs nothing: the row stays approved, the cursor and the counters stay put. */
  lemma HaltedLaneTouchesNothing(plan: Plan, w: World, m: MessageId, i: SendInput)
    requires m < |w.messages|
    requires LaneDown(w.log, w.messages[m].account, w.messages[m].kind, i.now)
    requires |Failures(w.log, w.messages[m].target, w.messages[m].kind, w.messages[m].createdAt)| >= 5
    ensures SendApproved(plan, w, m, i) == w.(clock := i.now)
  {
    LaneDownIff(w.log, w.messages[m].account, w.messages[m].kind, i.now);
    CountIsFailures(w.log, w.messages[m].target, w.messages[m].kind, w.messages[m].createdAt);
  }

  // ----- what the tick reports of an approved row

  /** Only the clock, the action rows and the pile may differ. */
  ghost predicate TablesAlone(w: World, v: World) {
    v.messages == w.messages && v.cursors == w.cursors && v.targets == w.targets && v.suppressed == w.suppressed
  }

  /** A row stays queued exactly when nothing is reported of it, or it was held for a reply
      routed earlier; and a row nothing is reported of left the tables alone. */
  lemma StaysQueuedIff(plan: Plan, w: World, m: MessageId, i: SendInput)
    requires m < |w.messages| && w.messages[m].status == Approved
    ensures var v, o := SendApproved(plan, w, m, i), SendReport(plan, w, m, i);
            && (v.messages[m].status == Approved <==> o.None? || (o.value.SendHeld? && i.probe.route.None?))
            && (o.None? ==> TablesAlone(w, v))
  {
    var now := At(w, i.now);
    var msg := now.messages[m];
    if GateOpen(plan, now, msg.account, msg.kind, i.restAllows)
       && CountFailed(now.log, msg.target, msg.kind, msg.createdAt) < MAX_SEND_ATTEMPTS {
      if SendGuard(now, m, i).Some? {
        GuardReportFits(now, m, i);
      } else {
        DriveReportFits(plan, now, m, i);
      }
    }
  }

  lemma GuardReportFits(w: World, m: MessageId, i: SendInput)
    requires m < |w.messages| && w.messages[m].status == Approved && SendGuard(w, m, i).Some?
    ensures var v, o := SendGuard(w, m, i).value, GuardReport(w, m, i);
            && m < |v.messages|
            && (v.messages[m].status == Approved <==> o.None? || (o.value.SendHeld? && i.probe.Answered? && i.probe.route.None?))
            && (o.Some? && o.value.SendHeld? ==> i.probe.Answered?)
            && (o.None? ==> v == w)
  {
  }

  lemma DriveReportFits(plan: Plan, w: World, m: MessageId, i: SendInput)
    requires m < |w.messages| && w.messages[m].status == Approved
    ensures var v, o := SendResult(plan, w, m, i), DriveReport(w, m, i);
            && m < |v.messages|
            && (v.messages[m].status == Approved <==> o.None?)
            && (o.Some? ==> !o.value.SendHeld?)
            && (o.None? ==> TablesAlone(w, v))
  {
    if i.exec == Ran(Success) {
      DeliveryResolves(plan, w, m, i);
    } else if i.exec == Ran(ActionResult.Skipped) {
      NothingSentResolves(plan, w, m, i);
    } else {
      assert SendResult(plan, w, m, i)
          == ExecEffect(w, w.messages[m].target, w.messages[m].account, w.messages[m].kind, i.exec, ByApproval(m, w.messages[m].body));
    }
  }
}
