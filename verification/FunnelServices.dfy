/** The other writers of the funnel as they write the store: acceptances, decisions,
withdrawals, enrollments and removals. */
module FunnelServices {
  import opened Wrappers
  import opened Actions
  import opened WorkingSchedule
  import opened FunnelWorld
  import opened FunnelLaws
  import opened FunnelRuns
  import opened FunnelStores
  import opened TickRuns

  // ----- acceptances

  /** Release every accepted row in turn, each on the schedule of its account and next step. */
  ghost function ReleaseAll(plan: Plan, w: World, rows: seq<TargetId>, accepted: TargetId -> bool, now: int,
                            schedules: TargetId -> Schedule): World
    requires forall k :: 0 <= k < |rows| ==> rows[k] in w.cursors
    decreases |rows|
  {
    if rows == [] then w
    else
      var v := if accepted(rows[0]) then AcceptInvite(plan, w, rows[0], now, schedules(rows[0])) else w;
      ReleaseAll(plan, v, rows[1..], accepted, now, schedules)
  }

  /** The accepted rows, in order. */
  function AcceptedRows(rows: seq<TargetId>, accepted: TargetId -> bool): seq<TargetId> {
    if rows == [] then [] else (if accepted(rows[0]) then [rows[0]] else []) + AcceptedRows(rows[1..], accepted)
  }

  /** Rows parked for acceptance, each once. */
  ghost predicate ParkedRows(w: World, rows: seq<TargetId>) {
    Once(rows) && forall k :: 0 <= k < |rows| ==> rows[k] in w.cursors && w.cursors[rows[k]].state == AwaitingConnection
  }

  lemma OthersStayParked(plan: Plan, w: World, rows: seq<TargetId>, now: int, schedule: Schedule)
    requires rows != [] && ParkedRows(w, rows) && w.clock <= now
    ensures ParkedRows(AcceptInvite(plan, w, rows[0], now, schedule), rows[1..])
  {
    var v := AcceptInvite(plan, w, rows[0], now, schedule);
    forall k | 0 <= k < |rows[1..]|
      ensures rows[1..][k] in v.cursors && v.cursors[rows[1..][k]].state == AwaitingConnection
    {
      assert rows[1..][k] == rows[k + 1] != rows[0];
    }
  }

  lemma AcceptCons(plan: Plan, w: World, t: TargetId, now: int, schedule: Schedule, worlds: seq<World>, events: seq<Event>)
    requires w.clock <= now && t in w.cursors && w.cursors[t].state == AwaitingConnection
    requires Run(plan, worlds, events) && worlds[0] == AcceptInvite(plan, w, t, now, schedule)
    ensures Run(plan, [w] + worlds, [InviteAccepted(t, now, schedule)] + events)
  {
    RunCons(plan, w, InviteAccepted(t, now, schedule), worlds, events);
  }

  /** How one parked row came out of a pass. */
  datatype AcceptOutcome = StillWaiting | ConnectedAt(nextStep: nat) | CompletedOnAccept

  /** What is reported of a row: nothing moved, or the step its cursor moved to. */
  function AcceptReport(plan: Plan, w: World, t: TargetId, accepted: bool): AcceptOutcome
    requires t in w.cursors
  {
    if !accepted || t !in w.targets then StillWaiting
    else if w.cursors[t].step + 1 >= |plan.Steps(w.cursors[t].campaign)| then CompletedOnAccept
    else ConnectedAt(w.cursors[t].step + 1)
  }

  /** One report per row, in order, each read from the tables as they stood at the start. */
  ghost predicate ReportsFit(plan: Plan, w: World, rows: seq<TargetId>, accepted: TargetId -> bool, outcomes: seq<AcceptOutcome>) {
    && (forall k :: 0 <= k < |rows| ==> rows[k] in w.cursors)
    && |outcomes| == |rows|
    && (forall k :: 0 <= k < |rows| ==> outcomes[k] == AcceptReport(plan, w, rows[k], accepted(rows[k])))
  }

  /** What a report is read from is the same in both worlds. */
  ghost predicate SameReport(w: World, v: World, t: TargetId) {
    t in w.cursors && t in v.cursors && v.cursors[t] == w.cursors[t] && (t in v.targets <==> t in w.targets)
  }

  /** Releasing some rows changes no other row's report. */
  lemma {:induction false} ReleasesLeaveReport(plan: Plan, w: World, rows: seq<TargetId>, accepted: TargetId -> bool, now: int,
                                               schedules: TargetId -> Schedule, t: TargetId)
    requires (forall k :: 0 <= k < |rows| ==> rows[k] in w.cursors) && t in w.cursors && t !in rows
    ensures SameReport(w, ReleaseAll(plan, w, rows, accepted, now, schedules), t)
    decreases |rows|
  {
    if rows != [] {
      var v := if accepted(rows[0]) then AcceptInvite(plan, w, rows[0], now, schedules(rows[0])) else w;
      assert SameReport(w, v, t);
      ReleasesLeaveReport(plan, v, rows[1..], accepted, now, schedules, t);
    }
  }

  /** Two passes over different rows, the second begun where the first ended. */
  lemma ReportsConcat(plan: Plan, w: World, v: World, xs: seq<TargetId>, ys: seq<TargetId>, accepted: TargetId -> bool,
                      a: seq<AcceptOutcome>, b: seq<AcceptOutcome>)
    requires ReportsFit(plan, w, xs, accepted, a) && ReportsFit(plan, v, ys, accepted, b)
    requires forall k :: 0 <= k < |ys| ==> SameReport(w, v, ys[k])
    ensures ReportsFit(plan, w, xs + ys, accepted, a + b)
  {
    forall k | 0 <= k < |xs + ys|
      ensures (xs + ys)[k] in w.cursors && (a + b)[k] == AcceptReport(plan, w, (xs + ys)[k], accepted((xs + ys)[k]))
    {
      if k >= |xs| {
        assert SameReport(w, v, ys[k - |xs|]);
      }
    }
  }

  function AcceptanceOf(t: TargetId, now: int, schedules: TargetId -> Schedule): Event {
    InviteAccepted(t, now, schedules(t))
  }

  /** A pass over parked rows never meets a stale one, so it is a run. */
  lemma {:induction false} AcceptancesAreARun(plan: Plan, warm: set<TargetId>, w: World, rows: seq<TargetId>, accepted: TargetId -> bool,
                                              now: int, schedules: TargetId -> Schedule)
      returns (worlds: seq<World>, events: seq<Event>)
    requires Inv(plan, warm, w) && w.clock <= now && ParkedRows(w, rows)
    ensures Run(plan, worlds, events) && worlds[0] == w
    ensures worlds[|worlds| - 1] == ReleaseAll(plan, w, rows, accepted, now, schedules)
    ensures |events| == |AcceptedRows(rows, accepted)|
    ensures forall k :: 0 <= k < |events| ==> events[k] == AcceptanceOf(AcceptedRows(rows, accepted)[k], now, schedules)
    decreases |rows|, 1
  {
    if rows == [] {
      worlds, events := [w], [];
    } else if !accepted(rows[0]) {
      worlds, events := AcceptancesAreARun(plan, warm, w, rows[1..], accepted, now, schedules);
    } else {
      var ws, es := LaterAcceptances(plan, warm, w, rows, accepted, now, schedules);
      AcceptCons(plan, w, rows[0], now, schedules(rows[0]), ws, es);
      worlds, events := [w] + ws, [AcceptanceOf(rows[0], now, schedules)] + es;
    }
  }

  lemma {:induction false} LaterAcceptances(plan: Plan, warm: set<TargetId>, w: World, rows: seq<TargetId>, accepted: TargetId -> bool,
                                            now: int, schedules: TargetId -> Schedule)
      returns (worlds: seq<World>, events: seq<Event>)
    requires Inv(plan, warm, w) && w.clock <= now && rows != [] && ParkedRows(w, rows)
    ensures var v := AcceptInvite(plan, w, rows[0], now, schedules(rows[0]));
            && (forall k :: 0 <= k < |rows[1..]| ==> rows[1..][k] in v.cursors)
            && Run(plan, worlds, events) && worlds[0] == v
            && worlds[|worlds| - 1] == ReleaseAll(plan, v, rows[1..], accepted, now, schedules)
    ensures |events| == |AcceptedRows(rows[1..], accepted)|
    ensures forall k :: 0 <= k < |events| ==> events[k] == AcceptanceOf(AcceptedRows(rows[1..], accepted)[k], now, schedules)
    decreases |rows|, 0
  {
    var v := AcceptInvite(plan, w, rows[0], now, schedules(rows[0]));
    assert Inv(plan, warm, v) && v.clock == now by {
      AcceptKept(plan, warm, w, rows[0], now, schedules(rows[0]));
    }
    OthersStayParked(plan, w, rows, now, schedules(rows[0]));
    worlds, events := AcceptancesAreARun(plan, warm, v, rows[1..], accepted, now, schedules);
  }

  /** The groups one after the other. */
  function Flatten(accounts: seq<AccountId>, groups: map<AccountId, seq<TargetId>>): seq<TargetId> {
    if accounts == [] then []
    else (if accounts[0] in groups then groups[accounts[0]] else []) + Flatten(accounts[1..], groups)
  }

  lemma {:induction false} FlattenHolds(accounts: seq<AccountId>, groups: map<AccountId, seq<TargetId>>, t: TargetId)
    ensures t in Flatten(accounts, groups) <==> exists a :: a in accounts && a in groups && t in groups[a]
  {
    if accounts != [] {
      FlattenHolds(accounts[1..], groups, t);
      assert forall a :: a in accounts <==> a == accounts[0] || a in accounts[1..];
    }
  }

  /** Each row is in one group, so flattening the groups lists each row once. */
  lemma {:induction false} FlattenOnce(accounts: seq<AccountId>, groups: map<AccountId, seq<TargetId>>)
    requires forall j, k :: 0 <= j < k < |accounts| ==> accounts[j] != accounts[k]
    requires forall a :: a in groups ==> Once(groups[a])
    requires forall a, b, t :: a in groups && b in groups && t in groups[a] && t in groups[b] ==> a == b
    ensures Once(Flatten(accounts, groups))
  {
    if accounts != [] {
      FlattenOnce(accounts[1..], groups);
      var head := if accounts[0] in groups then groups[accounts[0]] else [];
      var tail := Flatten(accounts[1..], groups);
      forall t | t in head ensures t !in tail {
        FlattenHolds(accounts[1..], groups, t);
      }
      OnceConcat(head, tail);
    }
  }

  lemma OnceConcat(xs: seq<TargetId>, ys: seq<TargetId>)
    requires Once(xs) && Once(ys) && forall t :: t in xs ==> t !in ys
    ensures Once(xs + ys)
  {
    forall j, k | 0 <= j < k < |xs + ys| ensures (xs + ys)[j] != (xs + ys)[k] {
      if j < |xs| <= k {
        assert xs[j] !in ys && ys[k - |xs|] in ys;
      }
    }
  }

  lemma {:induction false} ReleaseAllAppend(plan: Plan, w: World, xs: seq<TargetId>, ys: seq<TargetId>, accepted: TargetId -> bool,
                                            now: int, schedules: TargetId -> Schedule)
    requires forall k :: 0 <= k < |xs| ==> xs[k] in w.cursors
    requires forall k :: 0 <= k < |ys| ==> ys[k] in w.cursors
    ensures ReleaseAll(plan, w, xs, accepted, now, schedules).cursors.Keys == w.cursors.Keys
    ensures ReleaseAll(plan, w, xs + ys, accepted, now, schedules)
         == ReleaseAll(plan, ReleaseAll(plan, w, xs, accepted, now, schedules), ys, accepted, now, schedules)
    decreases |xs|
  {
    if xs == [] {
      assert xs + ys == ys;
    } else {
      var v := if accepted(xs[0]) then AcceptInvite(plan, w, xs[0], now, schedules(xs[0])) else w;
      ReleaseAllAppend(plan, v, xs[1..], ys, accepted, now, schedules);
      assert (xs + ys)[1..] == xs[1..] + ys;
    }
  }

  class AcceptanceTick {
    const store: FunnelStore
    const plan: Plan

    constructor (store: FunnelStore, plan: Plan)
      ensures this.store == store && this.plan == plan
    {
      this.store := store;
      this.plan := plan;
    }

    /** Release one parked cursor: stage 'connected', cursor past the connect, pile released. */
    method Release(t: TargetId, now: int, schedule: Schedule) returns (o: AcceptOutcome)
      requires t in store.cursors
      modifies store
      ensures store.W() == AcceptInvite(plan, old(store.W()), t, now, schedule)
      ensures o == if t !in old(store.targets) then StillWaiting
                   else if old(store.cursors)[t].step + 1 < |plan.Steps(old(store.cursors)[t].campaign)|
                   then ConnectedAt(old(store.cursors)[t].step + 1) else CompletedOnAccept
    {
      store.clock := now;
      if t !in store.targets {
        return StillWaiting;
      }
      var c := store.cursors[t];
      store.SetTargetStage(t, Connected);
      var moved := AdvanceAfterStep(plan.Steps(c.campaign), c, now, schedule);
      store.AdvanceTargetProgress(t, moved);
      store.InviteResolved(c.account);
      store.Record(Accepted(t));
      return if moved.state == Completed then CompletedOnAccept else ConnectedAt(moved.step);
    }

    /** Group the parked rows by account, keeping first-seen order. */
    method GroupByAccount(rows: seq<TargetId>) returns (accounts: seq<AccountId>, groups: map<AccountId, seq<TargetId>>)
      requires forall k :: 0 <= k < |rows| ==> rows[k] in store.cursors
      ensures forall a :: a in accounts <==> a in groups
      ensures forall j, k :: 0 <= j < k < |accounts| ==> accounts[j] != accounts[k]
      ensures forall a, t :: a in groups && t in groups[a] ==> t in rows && t in store.cursors && store.cursors[t].account == a
      ensures forall t :: t in rows ==> store.cursors[t].account in groups && t in groups[store.cursors[t].account]
      ensures Once(rows) ==> forall a :: a in groups ==> Once(groups[a])
    {
      accounts, groups := [], map[];
      var i := 0;
      while i < |rows|
        invariant 0 <= i <= |rows|
        invariant forall a :: a in accounts <==> a in groups
        invariant forall j, k :: 0 <= j < k < |accounts| ==> accounts[j] != accounts[k]
        invariant forall a, t :: a in groups && t in groups[a] ==> t in rows[..i] && t in store.cursors && store.cursors[t].account == a
        invariant forall t :: t in rows[..i] ==> store.cursors[t].account in groups && t in groups[store.cursors[t].account]
        invariant Once(rows) ==> forall a :: a in groups ==> Once(groups[a])
      {
        var t := rows[i];
        var a := store.cursors[t].account;
        assert Once(rows) ==> t !in rows[..i];
        assert rows[..i + 1] == rows[..i] + [t];
        if a in groups {
          groups := groups[a := groups[a] + [t]];
        } else {
          accounts := accounts + [a];
          groups := groups[a := [t]];
        }
        i := i + 1;
      }
      assert rows[..|rows|] == rows;
    }

    /** One pass: every parked row is looked at once, against its own account's connections. */
    method RunTick(accepted: TargetId -> bool, now: int, schedules: TargetId -> Schedule)
        returns (outcomes: seq<AcceptOutcome>, rows: seq<TargetId>)
      modifies store
      ensures Once(rows)
      ensures forall t :: t in rows <==> t in old(store.cursors) && old(store.cursors)[t].state == AwaitingConnection
      ensures forall k :: 0 <= k < |rows| ==> rows[k] in old(store.W()).cursors
      ensures store.W() == ReleaseAll(plan, old(store.W()), rows, accepted, now, schedules)
      ensures ReportsFit(plan, old(store.W()), rows, accepted, outcomes)
    {
      var parked := store.AwaitingConnections();
      var accounts, groups := GroupByAccount(parked);
      rows := Flatten(accounts, groups);
      forall a, b, t | a in groups && b in groups && t in groups[a] && t in groups[b] ensures a == b {
        assert store.cursors[t].account == a && store.cursors[t].account == b;
      }
      FlattenOnce(accounts, groups);
      forall t ensures t in rows <==> t in parked {
        FlattenHolds(accounts, groups, t);
      }
      outcomes := ReleaseGroups(accounts, groups, accepted, now, schedules);
    }

    /** Account by account. */
    method ReleaseGroups(accounts: seq<AccountId>, groups: map<AccountId, seq<TargetId>>, accepted: TargetId -> bool, now: int,
                         schedules: TargetId -> Schedule)
        returns (outcomes: seq<AcceptOutcome>)
      requires forall k :: 0 <= k < |Flatten(accounts, groups)| ==> Flatten(accounts, groups)[k] in store.cursors
      requires Once(Flatten(accounts, groups)) && forall a :: a in accounts ==> a in groups
      modifies store
      ensures store.W() == ReleaseAll(plan, old(store.W()), Flatten(accounts, groups), accepted, now, schedules)
      ensures ReportsFit(plan, old(store.W()), Flatten(accounts, groups), accepted, outcomes)
    {
      var k := 0;
      ghost var before, done := store.W(), [];
      outcomes := [];
      while k < |accounts|
        invariant 0 <= k <= |accounts|
        invariant done + Flatten(accounts[k..], groups) == Flatten(accounts, groups)
        invariant PassSoFar(plan, before, store.W(), done, accepted, now, schedules, outcomes)
      {
        ghost var head, w := groups[accounts[k]], store.W();
        assert accounts[k..][1..] == accounts[k + 1..];
        assert done + Flatten(accounts[k..], groups) == done + head + Flatten(accounts[k + 1..], groups);
        GroupIsNext(plan, before, w, done, head, Flatten(accounts[k + 1..], groups), accepted, now, schedules, outcomes);
        var more := ReleaseGroup(groups[accounts[k]], accepted, now, schedules);
        GroupDone(plan, before, w, done, head, accepted, now, schedules, outcomes, more);
        outcomes, done := outcomes + more, done + head;
        k := k + 1;
      }
      assert done == Flatten(accounts, groups);
    }

    /** One account's pass over its own rows. */
    method ReleaseGroup(rows: seq<TargetId>, accepted: TargetId -> bool, now: int, schedules: TargetId -> Schedule)
        returns (outcomes: seq<AcceptOutcome>)
      requires Once(rows) && forall k :: 0 <= k < |rows| ==> rows[k] in store.cursors
      modifies store
      ensures store.W() == ReleaseAll(plan, old(store.W()), rows, accepted, now, schedules)
      ensures ReportsFit(plan, old(store.W()), rows, accepted, outcomes)
    {
      ghost var before := store.W();
      outcomes := [];
      for k := 0 to |rows|
        invariant PassSoFar(plan, before, store.W(), rows[..k], accepted, now, schedules, outcomes)
      {
        ghost var w := store.W();
        assert rows[..k + 1] == rows[..k] + [rows[k]];
        assert rows == rows[..k] + [rows[k]] + rows[k + 1..];
        GroupIsNext(plan, before, w, rows[..k], [rows[k]], rows[k + 1..], accepted, now, schedules, outcomes);
        var o := StillWaiting;
        if accepted(rows[k]) {
          o := Release(rows[k], now, schedules(rows[k]));
        }
        ReleaseAllOfOne(plan, w, rows[k], accepted, now, schedules);
        GroupDone(plan, before, w, rows[..k], [rows[k]], accepted, now, schedules, outcomes, [o]);
        outcomes := outcomes + [o];
      }
      assert rows[..|rows|] == rows;
    }
  }

  /** A pass that has dealt with some rows: the releases it made and the reports it gave. */
  ghost predicate PassSoFar(plan: Plan, before: World, w: World, done: seq<TargetId>, accepted: TargetId -> bool, now: int,
                            schedules: TargetId -> Schedule, outcomes: seq<AcceptOutcome>) {
    && ReportsFit(plan, before, done, accepted, outcomes)
    && w == ReleaseAll(plan, before, done, accepted, now, schedules)
  }

  lemma ReleaseAllOfOne(plan: Plan, w: World, t: TargetId, accepted: TargetId -> bool, now: int, schedules: TargetId -> Schedule)
    requires t in w.cursors
    ensures ReleaseAll(plan, w, [t], accepted, now, schedules)
         == if accepted(t) then AcceptInvite(plan, w, t, now, schedules(t)) else w
  {
    assert [t][1..] == [];
  }

  /** The next rows are still as the pass found them. */
  lemma GroupIsNext(plan: Plan, before: World, w: World, done: seq<TargetId>, head: seq<TargetId>, tail: seq<TargetId>,
                    accepted: TargetId -> bool, now: int, schedules: TargetId -> Schedule, outcomes: seq<AcceptOutcome>)
    requires PassSoFar(plan, before, w, done, accepted, now, schedules, outcomes) && Once(done + head + tail)
    requires forall k :: 0 <= k < |done + head + tail| ==> (done + head + tail)[k] in before.cursors
    ensures Once(head) && forall k :: 0 <= k < |head| ==> SameReport(before, w, head[k])
  {
    var all := done + head + tail;
    forall k | 0 <= k < |head| ensures SameReport(before, w, head[k]) {
      assert all[|done| + k] == head[k];
      forall j | 0 <= j < |done| ensures done[j] != head[k] {
        assert all[j] == done[j];
      }
      ReleasesLeaveReport(plan, before, done, accepted, now, schedules, head[k]);
    }
    forall j, k | 0 <= j < k < |head| ensures head[j] != head[k] {
      assert all[|done| + j] == head[j] && all[|done| + k] == head[k];
    }
  }

  lemma GroupDone(plan: Plan, before: World, w: World, done: seq<TargetId>, head: seq<TargetId>,
                  accepted: TargetId -> bool, now: int, schedules: TargetId -> Schedule, outcomes: seq<AcceptOutcome>, more: seq<AcceptOutcome>)
    requires PassSoFar(plan, before, w, done, accepted, now, schedules, outcomes) && ReportsFit(plan, w, head, accepted, more)
    requires forall k :: 0 <= k < |head| ==> SameReport(before, w, head[k])
    ensures PassSoFar(plan, before, ReleaseAll(plan, w, head, accepted, now, schedules), done + head, accepted, now, schedules, outcomes + more)
  {
    ReportsConcat(plan, before, w, done, head, accepted, outcomes, more);
    assert forall k :: 0 <= k < |head| ==> SameReport(before, w, head[k]) && head[k] in before.cursors;
    ReleaseAllAppend(plan, before, done, head, accepted, now, schedules);
  }

  // ----- decisions

  datatype DecideError = NotFound | AlreadyDecided

  class ApprovalService {
    const store: FunnelStore

    constructor (store: FunnelStore)
      ensures this.store == store
    {
      this.store := store;
    }

    /** Decide a draft once: body, then status, then the event. */
    method Decide(m: MessageId, d: ApprovalDecision, newBody: Body) returns (error: Option<DecideError>)
      modifies store
      ensures error == if m >= |old(store.messages)| then Some(NotFound)
                       else if old(store.messages)[m].status != Draft then Some(AlreadyDecided) else None
      ensures store.W() == if error.Some? then old(store.W()) else DecideDraft(old(store.W()), m, d, newBody, false)
    {
      if m >= |store.messages| {
        return Some(NotFound);
      }
      if store.messages[m].status != Draft {
        return Some(AlreadyDecided);
      }
      if d == Edit {
        store.messages := store.messages[m := store.messages[m].(body := newBody)];
      }
      if d == Approve || d == Edit {
        store.SetMessageStatus(m, Approved);
      }
      if d == Reject {
        store.SetMessageStatus(m, Rejected);
      }
      store.Record(Decided(m, d, store.messages[m].body));
      return None;
    }

    /** The approval tool's rejection also stops the parked cursor; a rejection that fails stops nothing. */
    method RejectAndStop(m: MessageId) returns (error: Option<DecideError>)
      modifies store
      ensures error.Some? ==> store.W() == old(store.W())
      ensures error.None? ==> m < |old(store.messages)| && store.W() == DecideDraft(old(store.W()), m, Reject, 0, true)
    {
      error := Decide(m, Reject, 0);
      if error.None? {
        var t := store.messages[m].target;
        if t in store.cursors && store.cursors[t].state == AwaitingApproval {
          store.AdvanceTargetProgress(t, store.cursors[t].(state := ProgressState.Skipped, nextAt := None));
        }
      }
    }
  }

  // ----- withdrawals and removals

  /** The profile url or urn a row was sourced under; several rows may carry the same one. */
  type Urn = nat

  /** Removing leads one after the other. */
  ghost function RemoveAll(w: World, chosen: seq<TargetId>): World {
    if chosen == [] then w else RemoveTarget(RemoveAll(w, chosen[..|chosen| - 1]), chosen[|chosen| - 1])
  }

  lemma RemoveAllNext(w: World, chosen: seq<TargetId>, k: nat)
    requires k < |chosen|
    ensures RemoveAll(w, chosen[..k + 1]) == RemoveTarget(RemoveAll(w, chosen[..k]), chosen[k])
  {
    assert chosen[..k + 1][..k] == chosen[..k];
  }

  /** A removed lead carries the marker, is out of the funnel, and has nothing left to send. */
  ghost predicate Gone(w: World, t: TargetId) {
    && t in w.targets && w.targets[t].removed
    && (t in w.cursors ==> w.cursors[t].state !in {NotStarted, InProgress, AwaitingApproval, AwaitingConnection})
    && (forall m :: 0 <= m < |w.messages| && w.messages[m].target == t ==> w.messages[m].status !in {Draft, Approved})
  }

  /** Two worlds agree about a lead: its row, its cursor and its messages. */
  ghost predicate Untouched(w: World, v: World, t: TargetId) {
    && (t in w.targets <==> t in v.targets) && (t in w.targets ==> v.targets[t] == w.targets[t])
    && (t in w.cursors <==> t in v.cursors) && (t in w.cursors ==> v.cursors[t] == w.cursors[t])
    && |v.messages| == |w.messages|
    && (forall m :: 0 <= m < |w.messages| && w.messages[m].target == t ==> v.messages[m] == w.messages[m])
    && (forall m :: 0 <= m < |w.messages| ==> v.messages[m].target == w.messages[m].target)
  }

  lemma RemoveOneKeeps(w: World, u: TargetId, t: TargetId)
    ensures u == t && t in w.targets ==> Gone(RemoveTarget(w, u), t)
    ensures u != t ==> Untouched(w, RemoveTarget(w, u), t)
    ensures Gone(w, t) ==> Gone(RemoveTarget(w, u), t)
  {
  }

  /** After a removal the chosen leads are gone, lost exactly where they had been contacted;
      nothing else about any other lead has changed. */
  lemma {:induction false} RemovalIsComplete(w: World, chosen: seq<TargetId>, t: TargetId)
    requires Once(chosen) && forall k :: 0 <= k < |chosen| ==> chosen[k] in w.targets
    ensures var v := RemoveAll(w, chosen);
            && (t in chosen ==>
                  && t in w.targets && Gone(v, t)
                  && v.targets[t].stage == if w.targets[t].stage in {Invited, Connected, InConversation, Stage.Replied, Won} then Lost
                                        else w.targets[t].stage)
            && (t !in chosen ==> Untouched(w, v, t))
  {
    if chosen != [] {
      var n := |chosen| - 1;
      var init, last := chosen[..n], chosen[n];
      assert chosen == init + [last] && last !in init;
      RemovalIsComplete(w, init, t);
      RemovalIsComplete(w, init, last);
      RemoveOneKeeps(RemoveAll(w, init), last, t);
    }
  }

  /** The entries of a selector that name nothing. */
  function Lacking<T(!new)>(xs: seq<T>, known: T -> bool): (r: seq<T>)
    ensures forall x :: x in r <==> x in xs && !known(x)
  {
    if xs == [] then []
    else
      assert xs == xs[..|xs| - 1] + [xs[|xs| - 1]];
      Lacking(xs[..|xs| - 1], known) + if known(xs[|xs| - 1]) then [] else [xs[|xs| - 1]]
  }

  class LeadAdmin {
    const store: FunnelStore

    constructor (store: FunnelStore)
      ensures this.store == store
    {
      this.store := store;
    }

    /** A withdrawn invite takes its parked lead out; a lead not parked is left alone. */
    method ReleaseWithdrawn(t: TargetId, terminal: ProgressState) returns (released: bool)
      modifies store
      ensures released <==> t in old(store.cursors) && old(store.cursors)[t].state == AwaitingConnection
      ensures store.W() == if released then ReleaseParked(old(store.W()), t, terminal) else old(store.W())
    {
      released := t in store.cursors && store.cursors[t].state == AwaitingConnection;
      if released {
        store.SetTargetStage(t, Lost);
        store.InviteResolved(store.cursors[t].account);
        store.AdvanceTargetProgress(t, store.cursors[t].(state := terminal, nextAt := None));
      }
    }

    method RemoveOne(t: TargetId)
      modifies store
      ensures store.W() == RemoveTarget(old(store.W()), t)
    {
      if t in store.targets {
        var contacted := Contacted(store.targets[t].stage);
        store.StopFunnelFor(t, ProgressState.Skipped);
        if contacted {
          store.SetTargetStage(t, Lost);
        }
        store.targets := store.targets[t := store.targets[t].(removed := true)];
        store.Record(Removed(t));
      }
    }

    /** Resolve a selector against the campaign's rows, then remove what was found: rows named
        by id first, then every row of each urn, each row once. */
    method RemoveTargets(c: CampaignId, listing: seq<TargetId>, ids: seq<TargetId>, urns: seq<Urn>, urnOf: TargetId -> Urn)
        returns (removed: seq<TargetId>, noSuchId: seq<TargetId>, noSuchUrn: seq<Urn>)
      requires Once(listing) && forall t :: t in listing <==> t in store.targets && store.targets[t].campaign == c
      modifies store
      ensures Once(removed) && forall t :: t in removed <==> t in old(store.targets) && old(store.targets)[t].campaign == c
                                                              && (t in ids || urnOf(t) in urns)
      ensures noSuchId == Lacking(ids, t => t in listing)
      ensures noSuchUrn == Lacking(urns, u => u in UrnsOf(listing, urnOf))
      ensures store.W() == RemoveAll(old(store.W()), removed)
    {
      removed, noSuchId := ChooseIds(listing, ids);
      removed, noSuchUrn := ChooseUrns(listing, urns, urnOf, removed);
      UrnsOfHas(listing, urnOf);
      RemoveEach(removed);
    }

    method ChooseIds(listing: seq<TargetId>, ids: seq<TargetId>) returns (chosen: seq<TargetId>, missing: seq<TargetId>)
      ensures Once(chosen) && forall t :: t in chosen <==> t in listing && t in ids
      ensures missing == Lacking(ids, t => t in listing)
    {
      chosen, missing := [], [];
      for i := 0 to |ids|
        invariant Once(chosen) && forall t :: t in chosen <==> t in listing && t in ids[..i]
        invariant missing == Lacking(ids[..i], t => t in listing)
      {
        assert ids[..i + 1] == ids[..i] + [ids[i]] && ids[..i + 1][..i] == ids[..i];
        if ids[i] in listing {
          chosen := AddOnce(chosen, ids[i]);
        } else {
          missing := missing + [ids[i]];
        }
      }
      assert ids[..|ids|] == ids;
    }

    method ChooseUrns(listing: seq<TargetId>, urns: seq<Urn>, urnOf: TargetId -> Urn, before: seq<TargetId>)
        returns (chosen: seq<TargetId>, missing: seq<Urn>)
      requires Once(before)
      ensures Once(chosen) && forall t :: t in chosen <==> t in before || (t in listing && urnOf(t) in urns)
      ensures missing == Lacking(urns, u => u in UrnsOf(listing, urnOf))
    {
      chosen, missing := before, [];
      UrnsOfHas(listing, urnOf);
      for i := 0 to |urns|
        invariant Once(chosen) && forall t :: t in chosen <==> t in before || (t in listing && urnOf(t) in urns[..i])
        invariant missing == Lacking(urns[..i], u => u in UrnsOf(listing, urnOf))
      {
        assert urns[..i + 1] == urns[..i] + [urns[i]] && urns[..i + 1][..i] == urns[..i];
        if urns[i] in UrnsOf(listing, urnOf) {
          chosen := AddRowsOf(listing, urns[i], urnOf, chosen);
        } else {
          missing := missing + [urns[i]];
        }
      }
      assert urns[..|urns|] == urns;
    }

    /** All rows of one urn, in listing order. */
    method AddRowsOf(listing: seq<TargetId>, urn: Urn, urnOf: TargetId -> Urn, before: seq<TargetId>) returns (chosen: seq<TargetId>)
      requires Once(before)
      ensures Once(chosen) && forall t :: t in chosen <==> t in before || (t in listing && urnOf(t) == urn)
    {
      chosen := before;
      for k := 0 to |listing|
        invariant Once(chosen) && forall t :: t in chosen <==> t in before || (t in listing[..k] && urnOf(t) == urn)
      {
        assert listing[..k + 1] == listing[..k] + [listing[k]];
        if urnOf(listing[k]) == urn {
          chosen := AddOnce(chosen, listing[k]);
        }
      }
      assert listing[..|listing|] == listing;
    }

    method RemoveEach(chosen: seq<TargetId>)
      modifies store
      ensures store.W() == RemoveAll(old(store.W()), chosen)
    {
      for k := 0 to |chosen|
        invariant store.W() == RemoveAll(old(store.W()), chosen[..k])
      {
        RemoveAllNext(old(store.W()), chosen, k);
        RemoveOne(chosen[k]);
      }
      assert chosen[..|chosen|] == chosen;
    }
  }

  /** Insertion into an ordered set. */
  function AddOnce(xs: seq<TargetId>, t: TargetId): (r: seq<TargetId>)
    ensures Once(xs) ==> Once(r)
    ensures forall u :: u in r <==> u in xs || u == t
  {
    if t in xs then xs else xs + [t]
  }

  function UrnsOf(listing: seq<TargetId>, urnOf: TargetId -> Urn): seq<Urn> {
    seq(|listing|, i requires 0 <= i < |listing| => urnOf(listing[i]))
  }

  lemma UrnsOfHas(listing: seq<TargetId>, urnOf: TargetId -> Urn)
    ensures forall t :: t in listing ==> urnOf(t) in UrnsOf(listing, urnOf)
  {
    forall t | t in listing ensures urnOf(t) in UrnsOf(listing, urnOf) {
      var i :| 0 <= i < |listing| && listing[i] == t;
      assert UrnsOf(listing, urnOf)[i] == urnOf(t);
    }
  }
}
