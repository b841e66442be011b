/** The stored tables as the runtime updates them: row writes in place, each tied to
the world function it performs. */
module FunnelStores {
  import opened Wrappers
  import opened Actions
  import opened FunnelWorld
  import opened Sorting

  /** In progress with no due time, or one that has come. */
  predicate IsDue(c: Cursor, now: int) {
    c.state == InProgress && (c.nextAt.None? || c.nextAt.value <= now)
  }

  predicate IsUpcoming(c: Cursor, now: int) {
    c.state == InProgress && c.nextAt.Some? && c.nextAt.value > now
  }

  /** The rows of a lane with one result since an instant. */
  function CountLane(log: seq<Entry>, a: AccountId, kind: ActionType, result: ActionResult, since: int): nat {
    if log == [] then 0
    else CountLane(log[..|log| - 1], a, kind, result, since) + if LaneRow(log[|log| - 1], a, kind, result, since) then 1 else 0
  }

  lemma {:induction false} SucceededIffCounted(log: seq<Entry>, a: AccountId, kind: ActionType, since: int)
    ensures CountLane(log, a, kind, Success, since) > 0 <==> LaneSucceeded(log, a, kind, since)
  {
    if log != [] {
      var n := |log| - 1;
      SucceededIffCounted(log[..n], a, kind, since);
      if LaneSucceeded(log[..n], a, kind, since) {
        var k :| 0 <= k < n && LaneRow(log[..n][k], a, kind, Success, since);
        assert LaneRow(log[k], a, kind, Success, since);
      }
      if LaneSucceeded(log, a, kind, since) {
        var k :| 0 <= k < |log| && LaneRow(log[k], a, kind, Success, since);
        if k < n {
          assert LaneRow(log[..n][k], a, kind, Success, since);
        }
      }
    }
  }

  function NextAtOf(cursors: map<TargetId, Cursor>, t: TargetId): Option<int> {
    if t in cursors then cursors[t].nextAt else None
  }

  /** The order of due rows: those without a due time first, then by due time, then by creation. */
  predicate DueNoLater(cursors: map<TargetId, Cursor>, createdAt: TargetId -> int, t: TargetId, u: TargetId) {
    var x, y := NextAtOf(cursors, t), NextAtOf(cursors, u);
    if x == y then createdAt(t) <= createdAt(u)
    else x.None? || (y.Some? && x.value < y.value)
  }

  /** Rows in due order. */
  ghost predicate InDueOrder(cursors: map<TargetId, Cursor>, createdAt: TargetId -> int, rows: seq<TargetId>) {
    forall j, k :: 0 <= j < k < |rows| ==> DueNoLater(cursors, createdAt, rows[j], rows[k])
  }

  class FunnelStore {
    var clock: int
    var levels: map<CampaignId, AutonomyLevel>
    var targets: map<TargetId, Target>
    var cursors: map<TargetId, Cursor>
    var messages: seq<Message>
    var suppressed: set<Person>
    var outstanding: map<AccountId, nat>
    var log: seq<Entry>

    ghost function W(): World
      reads this
    {
      World(clock, levels, targets, cursors, messages, suppressed, outstanding, log)
    }

    constructor (w: World)
      ensures W() == w
    {
      clock := w.clock;
      levels := w.levels;
      targets := w.targets;
      cursors := w.cursors;
      messages := w.messages;
      suppressed := w.suppressed;
      outstanding := w.outstanding;
      log := w.log;
    }

    // ----- row writes

    method AdvanceTargetProgress(t: TargetId, c: Cursor)
      requires t in cursors
      modifies `cursors
      ensures W() == SetCursor(old(W()), t, c)
    {
      cursors := cursors[t := c];
    }

    /** An update by id touches nothing when the row is missing. */
    method SetTargetStage(t: TargetId, s: Stage)
      modifies `targets
      ensures W() == SetStage(old(W()), t, s)
    {
      if t in targets {
        targets := targets[t := targets[t].(stage := s)];
      }
    }

    method SetMessageStatus(m: MessageId, s: MessageStatus)
      requires m < |messages|
      modifies `messages
      ensures W() == SetStatus(old(W()), m, s)
    {
      messages := messages[m := messages[m].(status := s)];
    }

    method Record(e: Entry)
      modifies `log
      ensures W() == Note(old(W()), e)
    {
      log := log + [e];
    }

    method CreateDraft(t: TargetId, a: AccountId, kind: ActionType, body: Body) returns (m: MessageId)
      modifies `messages
      ensures m == |old(messages)|
      ensures messages == old(messages) + [Message.Message(t, a, kind, body, Draft, clock)]
    {
      m := |messages|;
      messages := messages + [Message.Message(t, a, kind, body, Draft, clock)];
    }

    method InviteLanded(a: AccountId)
      modifies `outstanding
      ensures W() == AddOutstanding(old(W()), a)
    {
      outstanding := outstanding[a := (if a in outstanding then outstanding[a] else 0) + 1];
    }

    method InviteResolved(a: AccountId)
      modifies `outstanding
      ensures W() == ReleaseOutstanding(old(W()), a)
    {
      var n := if a in outstanding then outstanding[a] else 0;
      outstanding := outstanding[a := if n > 0 then n - 1 else 0];
    }

    /** Cancel a lead's undelivered rows, one by one. */
    method CancelUndelivered(t: TargetId)
      modifies `messages
      ensures messages == CancelFor(old(messages), t)
    {
      ghost var before := messages;
      var i := 0;
      while i < |messages|
        invariant 0 <= i <= |messages| == |before|
        invariant forall k :: 0 <= k < i ==> messages[k] == CancelFor(before, t)[k]
        invariant forall k :: i <= k < |before| ==> messages[k] == before[k]
      {
        if messages[i].target == t && Live(messages[i].status) {
          messages := messages[i := messages[i].(status := Cancelled)];
        }
        i := i + 1;
      }
      assert messages == CancelFor(before, t);
    }

    /** Terminate the enrollment if it is still active, and cancel its undelivered rows. */
    method StopFunnelFor(t: TargetId, terminal: ProgressState)
      modifies `cursors, `messages
      ensures W() == StopFunnel(old(W()), t, terminal)
    {
      if t in cursors && Active(cursors[t].state) {
        cursors := cursors[t := cursors[t].(state := terminal, nextAt := None)];
      }
      CancelUndelivered(t);
    }

    // ----- reads

    /** Failed rows of a target and type since an instant, newest first. */
    method CountFailedSince(t: TargetId, kind: ActionType, since: int) returns (n: nat)
      ensures n == CountFailed(log, t, kind, since)
    {
      n := 0;
      var i := 0;
      while i < |log|
        invariant 0 <= i <= |log| && n == CountFailed(log[..i], t, kind, since)
      {
        assert log[..i + 1][..i] == log[..i];
        var e := log[i];
        if e.Drove? && e.target == t && e.kind == kind && e.result == ActionResult.Failed && e.at >= since {
          n := n + 1;
        }
        i := i + 1;
      }
      assert log[..|log|] == log;
    }

    /** Successes, and the distinct leads that failed, of one account and type since an instant. */
    method LaneHealthSince(a: AccountId, kind: ActionType, since: int) returns (successes: nat, failed: set<TargetId>)
      ensures successes == CountLane(log, a, kind, Success, since)
      ensures failed == FailedTargets(log, a, kind, since)
    {
      successes, failed := 0, {};
      var i := 0;
      while i < |log|
        invariant 0 <= i <= |log|
        invariant successes == CountLane(log[..i], a, kind, Success, since)
        invariant failed == set k | 0 <= k < i && LaneRow(log[k], a, kind, ActionResult.Failed, since) :: log[k].target
      {
        assert log[..i + 1][..i] == log[..i];
        if LaneRow(log[i], a, kind, Success, since) {
          successes := successes + 1;
        } else if LaneRow(log[i], a, kind, ActionResult.Failed, since) {
          failed := failed + {log[i].target};
        }
        i := i + 1;
      }
      assert log[..|log|] == log;
    }

    /** The ids of the rows waiting to be sent. */
    method ListApproved() returns (ids: seq<MessageId>)
      ensures forall k :: 0 <= k < |ids| ==> ids[k] < |messages| && messages[ids[k]].status == Approved
      ensures forall j, k :: 0 <= j < k < |ids| ==> ids[j] < ids[k]
      ensures forall m :: 0 <= m < |messages| && messages[m].status == Approved ==> m in ids
    {
      ids := [];
      var i := 0;
      while i < |messages|
        invariant 0 <= i <= |messages|
        invariant forall k :: 0 <= k < |ids| ==> ids[k] < i && messages[ids[k]].status == Approved
        invariant forall j, k :: 0 <= j < k < |ids| ==> ids[j] < ids[k]
        invariant forall m :: 0 <= m < i && messages[m].status == Approved ==> m in ids
      {
        if messages[i].status == Approved {
          ids := ids + [i];
        }
        i := i + 1;
      }
    }

    /** The rows of a selection, each once, in no particular order. */
    method Enumerate(selected: set<TargetId>) returns (rows: seq<TargetId>)
      ensures forall t :: t in rows <==> t in selected
      ensures forall j, k :: 0 <= j < k < |rows| ==> rows[j] != rows[k]
    {
      rows := [];
      var rest := selected;
      while rest != {}
        invariant rest <= selected
        invariant forall t :: t in rows <==> t in selected && t !in rest
        invariant forall j, k :: 0 <= j < k < |rows| ==> rows[j] != rows[k]
      {
        var t :| t in rest;
        rows := rows + [t];
        rest := rest - {t};
      }
    }

    /** The due rows: immediate ones first, then by due time; ties by creation. */
    method DueTargetProgress(now: int, createdAt: TargetId -> int) returns (rows: seq<TargetId>)
      ensures forall t :: t in rows <==> t in cursors && cursors[t].state == InProgress
                                         && (cursors[t].nextAt.None? || cursors[t].nextAt.value <= now)
      ensures forall j, k :: 0 <= j < k < |rows| ==> rows[j] != rows[k]
      ensures forall j, k :: 0 <= j < k < |rows| ==>
                var x, y := cursors[rows[j]].nextAt, cursors[rows[k]].nextAt;
                (x.None? && y.Some?) || (x.Some? && y.Some? && x.value < y.value) || (x == y && createdAt(rows[j]) <= createdAt(rows[k]))
      ensures InDueOrder(cursors, createdAt, rows)
    {
      var found := Enumerate(set t | t in cursors && IsDue(cursors[t], now));
      var table := cursors;
      rows := StableSort(found, (t, u) => DueNoLater(table, createdAt, t, u));
      SameMembers(rows, found);
      DistinctShuffled(found, rows);
    }

    method UpcomingTargetProgress(now: int) returns (rows: seq<TargetId>)
      ensures forall t :: t in rows <==> t in cursors && cursors[t].state == InProgress
                                         && cursors[t].nextAt.Some? && now < cursors[t].nextAt.value
      ensures forall j, k :: 0 <= j < k < |rows| ==> rows[j] != rows[k]
    {
      rows := Enumerate(set t | t in cursors && IsUpcoming(cursors[t], now));
    }

    method AwaitingConnections() returns (rows: seq<TargetId>)
      ensures forall t :: t in rows <==> t in cursors && cursors[t].state == AwaitingConnection
      ensures forall j, k :: 0 <= j < k < |rows| ==> rows[j] != rows[k]
    {
      rows := Enumerate(set t | t in cursors && cursors[t].state == AwaitingConnection);
    }
  }
}
