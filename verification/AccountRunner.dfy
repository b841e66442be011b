/** The executor's bookkeeping around a page drive, and the operator's pause
controls, over the live counters. Each method is one transition of the account
it is called for (see ActionRuns) and leaves every other account alone. */
module AccountRunners {
  import opened Wrappers
  import opened LocalTime
  import opened Actions
  import opened SafetyCounters
  import opened SafetyGates
  import opened ActionRuns

  lemma MintedStep(env: Env, s: Ledger, e: Event, t: Ledger)
    requires e.Mint? && Admissible(env, s, e) && MaybePruned(s, t, e.at)
    requires t.clock == e.stampedAt && t.pauseLog == s.pauseLog && t.paused == s.paused
    requires Verdict(env, s, e) == Allow ==>
               && t.rows == s.rows + [ActionRow(e.kind, e.createdAt, None, Pending)]
               && t.last == Later(s.last, e.stampedAt) && t.inFlight == Some(InFlight(e.at, e.stampedAt))
    requires Verdict(env, s, e) != Allow ==> t.rows == s.rows && t.last == s.last && t.inFlight == s.inFlight
    ensures Step(env, s, e, t)
  {
  }

  lemma LandedStep(env: Env, s: Ledger, e: Event, t: Ledger)
    requires e.Land? && Admissible(env, s, e) && |s.rows| > 0
    requires t.clock == e.at && t.pauseLog == s.pauseLog && t.paused == s.paused && t.inFlight == None
    requires t.last == Later(s.last, e.at)
    requires t.rows == s.rows[..|s.rows| - 1] + [Settled(s.rows[|s.rows| - 1], e.result, e.at)]
    requires var kind := s.rows[|s.rows| - 1].kind;
             && t.weekly == (if e.result == Success && kind == Connect then s.weekly + [e.at] else s.weekly)
             && forall k :: StampsFor(t.daily, k)
                         == if e.result == Success && k == kind then StampsFor(s.daily, k) + [e.at] else StampsFor(s.daily, k)
    ensures Step(env, s, e, t)
  {
  }

  /** The live counters of `t` are those the stored rows and pause log give at boot. */
  ghost predicate RebuiltFrom(rows: seq<ActionRow>, pauseLog: seq<PauseEvent>, at: int, t: Ledger) {
    && t.weekly == Stamps(rows, Connect)
    && HoldsToday(t.daily, rows, StartOfLocalDay(at))
    && t.last == LatestAction(rows)
    && t.paused == PausedFrom(pauseLog)
  }

  lemma RestartedStep(env: Env, s: Ledger, at: int, t: Ledger)
    requires s.clock <= at && t.clock == at && t.rows == s.rows && t.pauseLog == s.pauseLog && t.inFlight == None
    requires RebuiltFrom(s.rows, s.pauseLog, at, t)
    ensures Step(env, s, Event.Restart(at), t)
  {
  }

  ghost predicate Reclaims(s: Ledger, at: int, olderThan: int, t: Ledger) {
    t == AfterReclaim(s, at, olderThan)
  }

  /** Where it is admissible, reclaiming is one transition of the account. */
  lemma ReclaimedStep(env: Env, s: Ledger, at: int, olderThan: int, t: Ledger)
    requires Admissible(env, s, Event.Reclaim(at, olderThan)) && Reclaims(s, at, olderThan, t)
    ensures Step(env, s, Event.Reclaim(at, olderThan), t)
  {
  }

  class AccountRunner {
    const gate: SafetyGate
    var rows: map<AccountId, seq<ActionRow>>
    var pauseLog: map<AccountId, seq<PauseEvent>>
    ghost var inFlight: map<AccountId, InFlight>
    ghost var clock: map<AccountId, int>

    constructor (gate: SafetyGate)
      ensures this.gate == gate && rows == map[] && pauseLog == map[]
    {
      this.gate := gate;
      rows := map[];
      pauseLog := map[];
      inFlight := map[];
      clock := map[];
    }

    function RowsOf(id: AccountId): seq<ActionRow>
      reads this
    {
      if id in rows then rows[id] else []
    }

    function PauseLogOf(id: AccountId): seq<PauseEvent>
      reads this
    {
      if id in pauseLog then pauseLog[id] else []
    }

    /** One account's stored rows and live counters, as a value. */
    ghost function View(id: AccountId): Ledger
      reads this, gate.weekly, gate.daily, gate.pacer, gate.pause
    {
      Ledger(if id in clock then clock[id] else 0,
             RowsOf(id), PauseLogOf(id), gate.weekly.List(id), gate.daily.Table(id), gate.pacer.LastActionAt(id),
             id in gate.pause.paused,
             if id in inFlight then Some(inFlight[id]) else None)
    }

    /** First half of `runOne`: store the pending row, re-check the gate, and either
        drop the row again or reserve the pacer slot. */
    method Mint(ghost env: Env, acct: Account, kind: ActionType, createdAt: int, at: int, stampedAt: int, gap: int)
      returns (d: Decision)
      requires env.cfg == gate.cfg
      requires Admissible(env, View(acct.id), MintEvent(acct, kind, createdAt, at, stampedAt, gap))
      modifies this, gate.weekly, gate.daily, gate.pacer
      ensures Step(env, old(View(acct.id)), old(MintEvent(acct, kind, createdAt, at, stampedAt, gap)), View(acct.id))
      ensures d == Verdict(env, old(View(acct.id)), old(MintEvent(acct, kind, createdAt, at, stampedAt, gap)))
      ensures forall other :: other != acct.id ==> View(other) == old(View(other))
    {
      ghost var s := View(acct.id);
      ghost var e := MintEvent(acct, kind, createdAt, at, stampedAt, gap);
      assert gate.ReadingAt(acct.id, kind, at) == ReadingOf(s, kind, at, e.outstanding);
      d := CheckAndReserve(acct, kind, createdAt, at, stampedAt, gap);
      MintedStep(env, s, e, View(acct.id));
    }

    ghost function MintEvent(acct: Account, kind: ActionType, createdAt: int, at: int, stampedAt: int, gap: int): (e: Event)
      reads this, gate.outstanding
      ensures e.Mint?
    {
      Event.Mint(createdAt, at, stampedAt, acct, kind, gap, gate.outstanding.Outstanding(acct.id))
    }

    method CheckAndReserve(acct: Account, kind: ActionType, createdAt: int, at: int, stampedAt: int, gap: int)
      returns (d: Decision)
      requires ValidHours(gate.cfg, acct)
      modifies this, gate.weekly, gate.daily, gate.pacer
      ensures d == Decide(gate.cfg, acct, kind, at, old(gate.ReadingAt(acct.id, kind, at)), gap)
      ensures var s, t := old(View(acct.id)), View(acct.id);
              && MaybePruned(s, t, at)
              && t == s.(weekly := t.weekly, daily := t.daily, clock := stampedAt,
                         rows := s.rows + (if d == Allow then [ActionRow(kind, createdAt, None, Pending)] else []),
                         last := if d == Allow then Later(s.last, stampedAt) else s.last,
                         inFlight := if d == Allow then Some(InFlight(at, stampedAt)) else s.inFlight)
      ensures forall other :: other != acct.id ==> View(other) == old(View(other))
    {
      var id := acct.id;
      AddRow(id, ActionRow(kind, createdAt, None, Pending), stampedAt);
      d := gate.CanAct(acct, kind, at, gap);
      if d != Allow {
        DropRow(id);
      } else {
        Reserve(id, at, stampedAt);
      }
    }

    method AddRow(id: AccountId, row: ActionRow, ghost at: int)
      modifies this
      ensures View(id) == old(View(id)).(rows := old(View(id)).rows + [row], clock := at)
      ensures forall other :: other != id ==> View(other) == old(View(other))
    {
      rows := rows[id := RowsOf(id) + [row]];
      clock := clock[id := at];
    }

    method DropRow(id: AccountId)
      requires RowsOf(id) != []
      modifies this
      ensures View(id) == old(View(id)).(rows := old(RowsOf(id))[..|old(RowsOf(id))| - 1])
      ensures forall other :: other != id ==> View(other) == old(View(other))
    {
      rows := rows[id := RowsOf(id)[..|RowsOf(id)| - 1]];
    }

    method Reserve(id: AccountId, ghost at: int, stampedAt: int)
      modifies this, gate.pacer
      ensures View(id) == old(View(id)).(last := Later(old(View(id)).last, stampedAt), inFlight := Some(InFlight(at, stampedAt)))
      ensures forall other :: other != id ==> View(other) == old(View(other))
    {
      gate.pacer.Record(id, stampedAt);
      inFlight := inFlight[id := InFlight(at, stampedAt)];
    }

    /** Second half of `runOne`: the pacer is charged whatever happened; only a
        success warms the other counters. `releasedCursor` says a withdrawn invite
        freed a parked lead. */
    method Land(ghost env: Env, id: AccountId, at: int, result: ActionResult, releasedCursor: bool)
      requires env.cfg == gate.cfg && |RowsOf(id)| > 0
      requires Admissible(env, View(id), Event.Land(at, result))
      modifies this, gate.weekly, gate.daily, gate.pacer, gate.outstanding
      ensures Step(env, old(View(id)), Event.Land(at, result), View(id))
      ensures var n := |old(RowsOf(id))| - 1;
              RowsOf(id) == old(RowsOf(id))[..n] + [old(RowsOf(id))[n].(result := result, executedAt := Some(at))]
      ensures forall other :: other != id ==> View(other) == old(View(other))
      ensures var kind, pile := old(RowsOf(id))[|old(RowsOf(id))| - 1].kind, old(gate.outstanding.Outstanding(id));
              gate.outstanding.Outstanding(id) ==
                if result == Success && kind == Connect then pile + 1
                else if result == Success && kind == WithdrawInvite && releasedCursor && pile > 0 then pile - 1
                else pile
    {
      ghost var s := View(id);
      var kind := RowsOf(id)[|RowsOf(id)| - 1].kind;
      SettleLastRow(id, at, result);
      if result == Success {
        WarmCounters(id, kind, at, releasedCursor);
      }
      LandedStep(env, s, Event.Land(at, result), View(id));
    }

    method SettleLastRow(id: AccountId, at: int, result: ActionResult)
      requires |RowsOf(id)| > 0
      modifies this, gate.pacer
      ensures View(id) == old(View(id)).(
                clock := at, inFlight := None, last := Later(old(View(id)).last, at),
                rows := old(RowsOf(id))[..|old(RowsOf(id))| - 1] + [Settled(old(RowsOf(id))[|old(RowsOf(id))| - 1], result, at)])
      ensures forall other :: other != id ==> View(other) == old(View(other))
    {
      gate.pacer.Record(id, at);
      var last := RowsOf(id)[|RowsOf(id)| - 1];
      rows := rows[id := RowsOf(id)[..|RowsOf(id)| - 1] + [Settled(last, result, at)]];
      clock := clock[id := at];
      inFlight := inFlight - {id};
    }

    /** A success counts against the weekly ceiling (connects), the outstanding
        pile (up for a connect, down for a withdrawal that freed a lead) and the daily cap. */
    method WarmCounters(id: AccountId, kind: ActionType, at: int, releasedCursor: bool)
      modifies gate.weekly, gate.outstanding, gate.daily
      ensures gate.weekly.List(id) == if kind == Connect then old(gate.weekly.List(id)) + [at] else old(gate.weekly.List(id))
      ensures forall k :: StampsFor(gate.daily.Table(id), k)
                       == if k == kind then StampsFor(old(gate.daily.Table(id)), k) + [at] else StampsFor(old(gate.daily.Table(id)), k)
      ensures forall other :: other != id ==> gate.weekly.List(other) == old(gate.weekly.List(other))
                                              && gate.daily.Table(other) == old(gate.daily.Table(other))
      ensures var pile := old(gate.outstanding.Outstanding(id));
              gate.outstanding.Outstanding(id) == if kind == Connect then pile + 1
                                                  else if kind == WithdrawInvite && releasedCursor && pile > 0 then pile - 1
                                                  else pile
    {
      if kind == Connect {
        gate.weekly.Record(id, at);
        gate.outstanding.Record(id);
      }
      if kind == WithdrawInvite && releasedCursor {
        gate.outstanding.Release(id);
      }
      gate.daily.Record(id, kind, at);
    }

    /** Boot of a fresh process over the stored rows: each account makes its restart
        transition, whatever its live counters were before, and its pile is the cursors
        it has parked. `parked` names the account of each of those. */
    method RehydrateSafety(ghost env: Env, ghost before: map<AccountId, Ledger>, ids: seq<AccountId>, parked: seq<AccountId>, at: int)
      requires forall id :: id in ids ==> id in before && id in rows && id in pauseLog
      requires forall id :: id in ids ==>
                 && before[id].rows == rows[id] && before[id].pauseLog == pauseLog[id] && before[id].clock <= at
                 && gate.pacer.LastActionAt(id) == None && id !in inFlight
      modifies this, gate.weekly, gate.daily, gate.outstanding, gate.pacer, gate.pause
      ensures forall id :: id in ids ==> Step(env, before[id], Event.Restart(at), View(id))
      ensures forall id :: id in ids ==> gate.outstanding.Outstanding(id) == multiset(parked)[id]
    {
      clock := clock + (map id | id in ids :: at);
      RebuildCounters(ids, parked, at);
      forall id | id in ids ensures Step(env, before[id], Event.Restart(at), View(id)) {
        RestartedStep(env, before[id], at, View(id));
      }
    }

    method RebuildCounters(ids: seq<AccountId>, parked: seq<AccountId>, at: int)
      requires forall id :: id in ids ==> id in rows && id in pauseLog && gate.pacer.LastActionAt(id) == None
      modifies gate.weekly, gate.daily, gate.outstanding, gate.pacer, gate.pause
      ensures forall id :: id in ids ==> RebuiltFrom(rows[id], pauseLog[id], at, View(id))
      ensures forall id :: id in ids ==> gate.outstanding.Outstanding(id) == multiset(parked)[id]
    {
      gate.weekly.Rehydrate(rows, ids);
      gate.daily.Rehydrate(rows, ids, at);
      gate.outstanding.Rehydrate(parked, ids);
      gate.pacer.Rehydrate(rows, ids);
      gate.pause.Rehydrate(pauseLog, ids);
    }

    /** Boot, before the first tick: delete the rows earlier processes left pending.
        Each account makes its reclaim transition (see ReclaimedStep). */
    method ReclaimStalePending(ids: seq<AccountId>, ghost at: int, olderThan: int)
      requires forall i, j :: 0 <= i < j < |ids| ==> ids[i] != ids[j]
      modifies this
      ensures forall id :: id in ids ==> Reclaims(old(View(id)), at, olderThan, View(id))
      ensures forall id :: id !in ids ==> View(id) == old(View(id))
    {
      for i := 0 to |ids|
        invariant forall j :: 0 <= j < i ==> Reclaims(old(View(ids[j])), at, olderThan, View(ids[j]))
        invariant forall id :: id !in ids[..i] ==> View(id) == old(View(id))
      {
        ReclaimRows(ids[i], at, olderThan);
      }
    }

    method ReclaimRows(id: AccountId, ghost at: int, olderThan: int)
      modifies this
      ensures Reclaims(old(View(id)), at, olderThan, View(id))
      ensures forall other :: other != id ==> View(other) == old(View(other))
    {
      var kept := KeptRows(RowsOf(id), olderThan);
      rows := rows[id := kept];
      clock := clock[id := at];
    }

    static method KeptRows(rows: seq<ActionRow>, olderThan: int) returns (kept: seq<ActionRow>)
      ensures kept == Reclaimed(rows, olderThan)
    {
      kept := [];
      for i := 0 to |rows|
        invariant kept == Reclaimed(rows[..i], olderThan)
      {
        assert rows[..i + 1][..i] == rows[..i];
        if !Stale(rows[i], olderThan) {
          kept := kept + [rows[i]];
        }
      }
      assert rows[..|rows|] == rows;
    }

    method PauseAccount(ghost env: Env, id: AccountId, at: int)
      requires env.cfg == gate.cfg && Admissible(env, View(id), Event.Pause(at))
      modifies this, gate.pause
      ensures Step(env, old(View(id)), Event.Pause(at), View(id))
      ensures forall other :: other != id ==> View(other) == old(View(other))
    {
      gate.pause.Pause(id);
      pauseLog := pauseLog[id := PauseLogOf(id) + [PauseEvent(true, at)]];
      clock := clock[id := at];
    }

    method ResumeAccount(ghost env: Env, id: AccountId, at: int)
      requires env.cfg == gate.cfg && Admissible(env, View(id), Event.Resume(at))
      modifies this, gate.pause
      ensures Step(env, old(View(id)), Event.Resume(at), View(id))
      ensures forall other :: other != id ==> View(other) == old(View(other))
    {
      gate.pause.Resume(id);
      pauseLog := pauseLog[id := PauseLogOf(id) + [PauseEvent(false, at)]];
      clock := clock[id := at];
    }

    /** One pause event per account, so that each replays on its own after a restart. */
    method KillAll(ghost env: Env, ids: seq<AccountId>, at: int)
      requires env.cfg == gate.cfg
      requires forall i, j :: 0 <= i < j < |ids| ==> ids[i] != ids[j]
      requires forall id :: id in ids ==> Admissible(env, View(id), Event.Pause(at))
      modifies this, gate.pause
      ensures forall id :: id in ids ==> Step(env, old(View(id)), Event.Pause(at), View(id))
      ensures forall id :: id !in ids ==> View(id) == old(View(id))
    {
      for i := 0 to |ids|
        invariant forall j :: 0 <= j < i ==> Step(env, old(View(ids[j])), Event.Pause(at), View(ids[j]))
        invariant forall id :: id !in ids[..i] ==> View(id) == old(View(id))
      {
        PauseAccount(env, ids[i], at);
      }
    }
  }
}
