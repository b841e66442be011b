/** The live counters the safety gate reads: updated with every action,
pruned opportunistically on each read, rebuilt from stored rows at boot. */
module SafetyCounters {
  import opened Wrappers
  import opened LocalTime
  import opened Actions

  const SEVEN_DAYS_MS := 7 * DAY_MS

  /** An operator decision in the event log: paused, or resumed. */
  datatype PauseEvent = PauseEvent(paused: bool, ts: int)

  type StampTable = map<ActionType, seq<int>>

  function StampsFor(table: StampTable, kind: ActionType): seq<int> {
    if kind in table then table[kind] else []
  }

  /** Instants at or after this fall inside the rolling week that ends at `now`. */
  function WeekStart(now: int): int {
    now - SEVEN_DAYS_MS + 1
  }

  // ----- weekly invites

  class WeeklyInviteCounter {
    var connects: map<AccountId, seq<int>>

    constructor ()
      ensures connects == map[]
    {
      connects := map[];
    }

    function List(id: AccountId): seq<int>
      reads this
    {
      if id in connects then connects[id] else []
    }

    method Rehydrate(log: map<AccountId, seq<ActionRow>>, ids: seq<AccountId>)
      requires forall id :: id in ids ==> id in log
      modifies this
      ensures forall id :: id in ids ==> List(id) == Stamps(log[id], Connect)
      ensures forall id :: id !in ids ==> List(id) == old(List(id))
    {
      for i := 0 to |ids|
        invariant forall id :: id in ids[..i] ==> List(id) == Stamps(log[id], Connect)
        invariant forall id :: id !in ids[..i] ==> List(id) == old(List(id))
      {
        assert ids[..i + 1] == ids[..i] + [ids[i]];
        connects := connects[ids[i] := Stamps(log[ids[i]], Connect)];
      }
      assert ids[..|ids|] == ids;
    }

    method Record(id: AccountId, at: int)
      modifies this
      ensures connects == old(connects)[id := old(List(id)) + [at]]
    {
      connects := connects[id := List(id) + [at]];
    }

    /** A read that also prunes. */
    method InvitesLast7d(id: AccountId, now: int) returns (n: nat)
      modifies this
      ensures n == CountFrom(old(List(id)), WeekStart(now))
      ensures List(id) == KeepFrom(old(List(id)), WeekStart(now))
      ensures forall other :: other != id ==> List(other) == old(List(other))
    {
      if id !in connects {
        return 0;
      }
      var kept := KeepFrom(connects[id], WeekStart(now));
      PruningKeepsLaterCounts(connects[id], WeekStart(now), WeekStart(now));
      connects := connects[id := kept];
      n := |kept|;
    }
  }

  // ----- daily usage

  /** Each list kept as it was, or pruned from `lo`. */
  ghost predicate PrunedTable(before: StampTable, after: StampTable, lo: int) {
    forall k :: StampsFor(after, k) in {StampsFor(before, k), KeepFrom(StampsFor(before, k), lo)}
  }

  /** The table holds, for every kind, exactly the successes from `dayStart` on. */
  ghost predicate HoldsToday(table: StampTable, rows: seq<ActionRow>, dayStart: int) {
    forall k :: StampsFor(table, k) == KeepFrom(Stamps(rows, k), dayStart)
  }

  const ACTION_TYPES: set<ActionType> := {Connect, Message, ViewProfile, Follow, WithdrawInvite, React}

  lemma EveryKindListed()
    ensures forall k: ActionType :: k in ACTION_TYPES
  {
    forall k: ActionType ensures k in ACTION_TYPES {
      match k
      case Connect => case Message => case ViewProfile => case Follow => case WithdrawInvite => case React =>
    }
  }

  function NothingUsed(): (used: map<ActionType, nat>)
    ensures forall k :: k in used && used[k] == 0
  {
    EveryKindListed();
    map k: ActionType | k in ACTION_TYPES :: 0
  }

  /** A further row adds its stamp to its own kind, if it succeeded today. */
  lemma TodayGains(rows: seq<ActionRow>, r: ActionRow, dayStart: int)
    ensures forall k :: KeepFrom(Stamps(rows + [r], k), dayStart)
                        == KeepFrom(Stamps(rows, k), dayStart)
                           + (if r.kind == k && r.result == Success && r.When() >= dayStart then [r.When()] else [])
  {
    forall k ensures KeepFrom(Stamps(rows + [r], k), dayStart)
                     == KeepFrom(Stamps(rows, k), dayStart)
                        + (if r.kind == k && r.result == Success && r.When() >= dayStart then [r.When()] else [])
    {
      AppendRow(rows, r, k);
      KeepFromAppend(Stamps(rows, k), r.When(), dayStart);
      assert Stamps(rows, k) + [] == Stamps(rows, k);
    }
  }

  class DailyUsage {
    var stamps: map<AccountId, StampTable>

    constructor ()
      ensures stamps == map[]
    {
      stamps := map[];
    }

    function Table(id: AccountId): StampTable
      reads this
    {
      if id in stamps then stamps[id] else map[]
    }

    /** Rebuild today's stamps from successful rows only. */
    method Rehydrate(log: map<AccountId, seq<ActionRow>>, ids: seq<AccountId>, now: int)
      requires forall id :: id in ids ==> id in log
      modifies this
      ensures forall id :: id in ids ==> HoldsToday(Table(id), log[id], StartOfLocalDay(now))
      ensures forall id :: id !in ids ==> Table(id) == old(Table(id))
    {
      for i := 0 to |ids|
        invariant forall id :: id in ids[..i] ==> HoldsToday(Table(id), log[id], StartOfLocalDay(now))
        invariant forall id :: id !in ids[..i] ==> Table(id) == old(Table(id))
      {
        assert ids[..i + 1] == ids[..i] + [ids[i]];
        var byType := TodaysStamps(log[ids[i]], StartOfLocalDay(now));
        stamps := stamps[ids[i] := byType];
      }
      assert ids[..|ids|] == ids;
    }

    static method TodaysStamps(rows: seq<ActionRow>, dayStart: int) returns (byType: StampTable)
      ensures HoldsToday(byType, rows, dayStart)
    {
      byType := map[];
      assert rows[..0] == [];
      for i := 0 to |rows|
        invariant forall k :: StampsFor(byType, k) == KeepFrom(Stamps(rows[..i], k), dayStart)
      {
        var r := rows[i];
        assert rows[..i + 1] == rows[..i] + [r];
        TodayGains(rows[..i], r, dayStart);
        if r.result == Success && r.When() >= dayStart {
          byType := byType[r.kind := StampsFor(byType, r.kind) + [r.When()]];
        }
      }
      assert rows[..|rows|] == rows;
    }

    method Record(id: AccountId, kind: ActionType, at: int)
      modifies this
      ensures forall k :: StampsFor(Table(id), k)
                       == if k == kind then StampsFor(old(Table(id)), k) + [at] else StampsFor(old(Table(id)), k)
      ensures forall other :: other != id ==> Table(other) == old(Table(other))
    {
      stamps := stamps[id := Table(id)[kind := StampsFor(Table(id), kind) + [at]]];
    }

    /** A read that also drops every stamp from before today. */
    method UsedToday(id: AccountId, now: int) returns (used: map<ActionType, nat>)
      modifies this
      ensures forall k :: k in used && used[k] == CountFrom(StampsFor(old(Table(id)), k), StartOfLocalDay(now))
      ensures forall k :: StampsFor(Table(id), k) == KeepFrom(StampsFor(old(Table(id)), k), StartOfLocalDay(now))
      ensures forall other :: other != id ==> Table(other) == old(Table(other))
    {
      used := NothingUsed();
      if id in stamps {
        var table;
        table, used := PruneTable(stamps[id], StartOfLocalDay(now));
        stamps := stamps[id := table];
      }
    }

    static method PruneTable(before: StampTable, dayStart: int) returns (table: StampTable, used: map<ActionType, nat>)
      ensures forall k :: StampsFor(table, k) == KeepFrom(StampsFor(before, k), dayStart)
      ensures forall k :: k in used && used[k] == CountFrom(StampsFor(before, k), dayStart)
    {
      table, used := before, NothingUsed();
      var kinds := before.Keys;
      while kinds != {}
        invariant kinds <= before.Keys == table.Keys
        invariant forall k :: k in used
        invariant forall k :: k in kinds || k !in before ==> StampsFor(table, k) == StampsFor(before, k) && used[k] == 0
        invariant forall k :: k in before && k !in kinds ==>
                    table[k] == KeepFrom(before[k], dayStart) && used[k] == CountFrom(before[k], dayStart)
        decreases |kinds|
      {
        var k :| k in kinds;
        PruningKeepsLaterCounts(before[k], dayStart, dayStart);
        table := table[k := KeepFrom(table[k], dayStart)];
        used := used[k := |table[k]|];
        kinds := kinds - {k};
      }
    }
  }

  lemma KeepFromAppend(xs: seq<int>, t: int, lo: int)
    ensures KeepFrom(xs + [t], lo) == KeepFrom(xs, lo) + (if t >= lo then [t] else [])
  {
    assert (xs + [t])[..|xs|] == xs;
  }

  // ----- outstanding invites

  class OutstandingInvites {
    var pending: map<AccountId, nat>

    constructor ()
      ensures pending == map[]
    {
      pending := map[];
    }

    function Outstanding(id: AccountId): nat
      reads this
    {
      if id in pending then pending[id] else 0
    }

    /** One parked cursor per entry of `parked`, named by its account. */
    method Rehydrate(parked: seq<AccountId>, ids: seq<AccountId>)
      modifies this
      ensures forall id :: id in ids ==> Outstanding(id) == multiset(parked)[id]
      ensures forall id :: id !in ids ==> Outstanding(id) == old(Outstanding(id))
    {
      var counts: map<AccountId, nat> := map[];
      for i := 0 to |parked|
        invariant forall id :: (if id in counts then counts[id] else 0) == multiset(parked[..i])[id]
      {
        assert parked[..i + 1] == parked[..i] + [parked[i]];
        counts := counts[parked[i] := (if parked[i] in counts then counts[parked[i]] else 0) + 1];
      }
      assert parked[..|parked|] == parked;
      for i := 0 to |ids|
        invariant forall id :: id in ids[..i] ==> Outstanding(id) == multiset(parked)[id]
        invariant forall id :: id !in ids[..i] ==> Outstanding(id) == old(Outstanding(id))
      {
        pending := pending[ids[i] := if ids[i] in counts then counts[ids[i]] else 0];
      }
      assert ids[..|ids|] == ids;
    }

    method Record(id: AccountId)
      modifies this
      ensures pending == old(pending)[id := old(Outstanding(id)) + 1]
    {
      pending := pending[id := Outstanding(id) + 1];
    }

    /** Floors at zero. */
    method Release(id: AccountId)
      modifies this
      ensures pending == old(pending)[id := if old(Outstanding(id)) == 0 then 0 else old(Outstanding(id)) - 1]
    {
      var n := Outstanding(id);
      pending := pending[id := if n > 1 then n - 1 else 0];
    }
  }

  // ----- pacing

  class ActionPacer {
    var last: map<AccountId, int>

    constructor ()
      ensures last == map[]
    {
      last := map[];
    }

    function LastActionAt(id: AccountId): Option<int>
      reads this
    {
      if id in last then Some(last[id]) else None
    }

    /** The most recent row of any kind and result; an account with no rows is left alone. */
    method Rehydrate(log: map<AccountId, seq<ActionRow>>, ids: seq<AccountId>)
      requires forall id :: id in ids ==> id in log
      modifies this
      ensures forall id :: id in ids && log[id] != [] ==> LastActionAt(id) == LatestAction(log[id])
      ensures forall id :: id !in ids || log[id] == [] ==> LastActionAt(id) == old(LastActionAt(id))
    {
      for i := 0 to |ids|
        invariant forall id :: id in ids[..i] && log[id] != [] ==> LastActionAt(id) == LatestAction(log[id])
        invariant forall id :: id !in ids[..i] || log[id] == [] ==> LastActionAt(id) == old(LastActionAt(id))
      {
        assert ids[..i + 1] == ids[..i] + [ids[i]];
        var max := LatestOf(log[ids[i]]);
        if max.Some? {
          last := last[ids[i] := max.value];
        }
      }
      assert ids[..|ids|] == ids;
    }

    static method LatestOf(rows: seq<ActionRow>) returns (max: Option<int>)
      ensures max == LatestAction(rows)
    {
      max := None;
      assert rows[..0] == [];
      for j := 0 to |rows|
        invariant max == LatestAction(rows[..j])
      {
        assert rows[..j + 1][..j] == rows[..j];
        var t := rows[j].When();
        if max.None? || t > max.value {
          max := Some(t);
        }
      }
      assert rows[..|rows|] == rows;
    }

    /** Keep the maximum. */
    method Record(id: AccountId, at: int)
      modifies this
      ensures last == old(last)[id := if old(LastActionAt(id)).Some? then Max(at, old(LastActionAt(id)).value) else at]
    {
      if id !in last || at > last[id] {
        last := last[id := at];
      } else {
        assert last == last[id := last[id]];
      }
    }
  }

  // ----- operator pause

  /** The latest timestamp among one kind of pause event. */
  function MaxTs(events: seq<PauseEvent>, paused: bool): (r: Option<int>)
    ensures r.None? <==> forall e :: e in events ==> e.paused != paused
    ensures r.Some? ==> PauseEvent(paused, r.value) in events
    ensures r.Some? ==> forall e :: e in events && e.paused == paused ==> e.ts <= r.value
  {
    if events == [] then None
    else
      var rest := MaxTs(events[..|events| - 1], paused);
      var e := events[|events| - 1];
      assert events == events[..|events| - 1] + [e];
      if e.paused != paused then rest
      else if rest.None? then Some(e.ts) else Some(Max(rest.value, e.ts))
  }

  /** Boot rule: paused when the newest pause is strictly newer than the newest resume. */
  function PausedFrom(events: seq<PauseEvent>): bool {
    var lastPaused := MaxTs(events, true);
    var lastResumed := MaxTs(events, false);
    lastPaused.Some? && (lastResumed.None? || lastPaused.value > lastResumed.value)
  }

  /** An account boots paused exactly when some pause is later than every resume. */
  lemma BootsPausedIff(events: seq<PauseEvent>)
    ensures PausedFrom(events) <==>
              exists i :: 0 <= i < |events| && events[i].paused
                          && forall j :: 0 <= j < |events| && !events[j].paused ==> events[j].ts < events[i].ts
  {
    var p, r := MaxTs(events, true), MaxTs(events, false);
    if PausedFrom(events) {
      var i :| 0 <= i < |events| && events[i] == PauseEvent(true, p.value);
    }
    if i :| 0 <= i < |events| && events[i].paused
            && forall j :: 0 <= j < |events| && !events[j].paused ==> events[j].ts < events[i].ts
    {
      assert events[i] in events;
      if r.Some? {
        var j :| 0 <= j < |events| && events[j] == PauseEvent(false, r.value);
        assert r.value < events[i].ts <= p.value;
      }
    }
  }

  ghost predicate InTimeOrder(events: seq<PauseEvent>) {
    forall i, j :: 0 <= i <= j < |events| ==> events[i].ts <= events[j].ts
  }

  /** Replaying the log gives the flag the last decision left, except for one
      family of logs: the last decision is a pause and some resume carries the very
      same timestamp. Those boot unpaused. */
  lemma PauseReplayIsExactUpToTies(events: seq<PauseEvent>)
    requires events != [] && InTimeOrder(events)
    ensures var last := events[|events| - 1];
            PausedFrom(events) == last.paused <==> !(last.paused && PauseEvent(false, last.ts) in events)
    ensures var last := events[|events| - 1];
            !last.paused ==> !PausedFrom(events)
  {
    var last := events[|events| - 1];
    assert last in events;
    var p, r := MaxTs(events, true), MaxTs(events, false);
    if last.paused {
      assert p == Some(last.ts) by {
        var i :| 0 <= i < |events| && events[i] == PauseEvent(true, p.value);
        assert events[i].ts <= last.ts;
      }
      if r.Some? {
        var i :| 0 <= i < |events| && events[i] == PauseEvent(false, r.value);
        assert events[i].ts <= last.ts;
        if PauseEvent(false, last.ts) in events {
          assert r.value >= last.ts;
        }
      }
    } else if p.Some? {
      var i :| 0 <= i < |events| && events[i] == PauseEvent(true, p.value);
      assert events[i].ts <= last.ts;
      assert r.value >= last.ts;
    }
  }

  /** A resume and then a pause within one millisecond: the account boots unpaused. */
  lemma TiedPauseIsLost()
    ensures var events := [PauseEvent(false, 5), PauseEvent(true, 5)];
            InTimeOrder(events) && events[|events| - 1].paused && !PausedFrom(events)
  {
    var events := [PauseEvent(false, 5), PauseEvent(true, 5)];
    PauseReplayIsExactUpToTies(events);
  }

  class PauseRegistry {
    var paused: set<AccountId>

    constructor ()
      ensures paused == {}
    {
      paused := {};
    }

    method Rehydrate(log: map<AccountId, seq<PauseEvent>>, ids: seq<AccountId>)
      requires forall id :: id in ids ==> id in log
      modifies this
      ensures forall id :: id in ids ==> (id in paused <==> PausedFrom(log[id]))
      ensures forall id :: id !in ids ==> (id in paused <==> id in old(paused))
    {
      for i := 0 to |ids|
        invariant forall id :: id in ids[..i] ==> (id in paused <==> PausedFrom(log[id]))
        invariant forall id :: id !in ids[..i] ==> (id in paused <==> id in old(paused))
      {
        if PausedFrom(log[ids[i]]) {
          paused := paused + {ids[i]};
        } else {
          paused := paused - {ids[i]};
        }
      }
      assert ids[..|ids|] == ids;
    }

    method Pause(id: AccountId)
      modifies this
      ensures paused == old(paused) + {id}
    {
      paused := paused + {id};
    }

    method Resume(id: AccountId)
      modifies this
      ensures paused == old(paused) - {id}
    {
      paused := paused - {id};
    }
  }
}
