/** Batch enrollment: who is let in, and which staggered slot each newcomer gets. */
module Enrollment {
  import opened Wrappers
  import opened Actions
  import opened WorkingSchedule
  import opened GreedySlots
  import opened Stagger
  import opened FunnelWorld
  import opened FunnelStores
  import opened TickRuns
  import opened HumanGate
  import opened Sets

  // ----- who is let in

  datatype Verdict = Admit | WasRemoved | Elsewhere

  /** Removed by the operator, contacted by another campaign, or neither. Nothing is
      known against an id without a row; the insertion will refuse it. */
  function Judge(w: World, c: CampaignId, t: TargetId, listing: seq<TargetId>): Verdict {
    if t !in w.targets then Admit
    else if w.targets[t].removed then WasRemoved
    else if FirstBlocker(w, c, w.targets[t].person, listing).Some? then Elsewhere
    else Admit
  }

  /** Removal is looked at first, then contact by another campaign. */
  lemma JudgedFor(w: World, c: CampaignId, t: TargetId, listing: seq<TargetId>)
    ensures var v := Judge(w, c, t, listing);
            && (v == WasRemoved <==> t in w.targets && w.targets[t].removed)
            && (v == Elsewhere <==> t in w.targets && !w.targets[t].removed && exists u :: u in listing && ContactedElsewhere(w, t, c, u))
            && (v == Admit <==> t !in w.targets
                                || (!w.targets[t].removed && forall u :: u in listing ==> !ContactedElsewhere(w, t, c, u)))
  {
    if t in w.targets {
      NoBlockerIff(w, t, c, listing);
    }
  }

  /** The ids given one verdict, in order; an id may be listed twice. */
  function Judged(w: World, c: CampaignId, ids: seq<TargetId>, listings: TargetId -> seq<TargetId>, v: Verdict): (r: seq<TargetId>)
    ensures |r| <= |ids|
  {
    if ids == [] then []
    else
      var last := ids[|ids| - 1];
      Judged(w, c, ids[..|ids| - 1], listings, v) + (if Judge(w, c, last, listings(last)) == v then [last] else [])
  }

  /** They are picked out of the list one by one, none twice and none left out. */
  lemma {:induction false} JudgedPicks(w: World, c: CampaignId, ids: seq<TargetId>, more: seq<TargetId>, listings: TargetId -> seq<TargetId>, v: Verdict)
    ensures Judged(w, c, ids + more, listings, v) == Judged(w, c, ids, listings, v) + Judged(w, c, more, listings, v)
  {
    if more == [] {
      assert ids + more == ids;
    } else {
      var n, all := |more| - 1, ids + more;
      JudgedPicks(w, c, ids, more[..n], listings, v);
      assert all[..|all| - 1] == ids + more[..n] && all[|all| - 1] == more[n];
      var here := if Judge(w, c, more[n], listings(more[n])) == v then [more[n]] else [];
      assert Judged(w, c, all, listings, v) == Judged(w, c, ids + more[..n], listings, v) + here;
      assert Judged(w, c, more, listings, v) == Judged(w, c, more[..n], listings, v) + here;
    }
  }

  lemma JudgedOne(w: World, c: CampaignId, t: TargetId, listings: TargetId -> seq<TargetId>, v: Verdict)
    ensures Judged(w, c, [t], listings, v) == if Judge(w, c, t, listings(t)) == v then [t] else []
  {
    assert [t][..0] == [];
  }

  /** An id without a target row, which the foreign key refuses. */
  predicate Unknown(w: World, t: TargetId) {
    t !in w.targets
  }

  /** The ids before the first unknown one. */
  function Known(w: World, ids: seq<TargetId>): (r: seq<TargetId>)
    ensures |r| <= |ids| && r == ids[..|r|]
    ensures forall k :: 0 <= k < |r| ==> !Unknown(w, r[k])
    ensures |r| < |ids| ==> Unknown(w, ids[|r|])
  {
    if ids == [] || Unknown(w, ids[0]) then [] else [ids[0]] + Known(w, ids[1..])
  }

  // ----- which rows are written

  /** Insert unless a row exists: enrollment is idempotent. */
  function Insert(rows: map<TargetId, Cursor>, t: TargetId, row: Cursor): map<TargetId, Cursor> {
    if t in rows then rows else rows[t := row]
  }

  /** Insert a cursor for each id that has none. */
  function EnrollRows(cursors: map<TargetId, Cursor>, c: CampaignId, a: AccountId, ids: seq<TargetId>, slots: seq<Option<int>>): map<TargetId, Cursor>
    requires |slots| == |ids|
  {
    if ids == [] then cursors
    else
      var before := EnrollRows(cursors, c, a, ids[..|ids| - 1], slots[..|ids| - 1]);
      var t := ids[|ids| - 1];
      Insert(before, t, Cursor(c, a, InProgress, 0, slots[|ids| - 1], None))
  }

  lemma {:induction false} OldRowsStay(cursors: map<TargetId, Cursor>, c: CampaignId, a: AccountId, ids: seq<TargetId>, slots: seq<Option<int>>)
    requires |slots| == |ids|
    ensures var r := EnrollRows(cursors, c, a, ids, slots);
            && (forall t :: t in cursors ==> t in r && r[t] == cursors[t])
            && (forall t :: t in r ==> t in cursors || t in ids)
  {
    if ids != [] {
      OldRowsStay(cursors, c, a, ids[..|ids| - 1], slots[..|ids| - 1]);
    }
  }

  /** Each id stores the slot of its first place in the list, unless it had a row. */
  lemma {:induction false} NewcomersGetTheSlots(cursors: map<TargetId, Cursor>, c: CampaignId, a: AccountId, ids: seq<TargetId>,
                                               slots: seq<Option<int>>, k: nat)
    requires |slots| == |ids| && k < |ids|
    requires ids[k] !in cursors && ids[k] !in ids[..k]
    ensures var r := EnrollRows(cursors, c, a, ids, slots);
            ids[k] in r && r[ids[k]] == Cursor(c, a, InProgress, 0, slots[k], None)
  {
    var n := |ids| - 1;
    OldRowsStay(cursors, c, a, ids[..n], slots[..n]);
    if k < n {
      assert ids[..n][..k] == ids[..k];
      NewcomersGetTheSlots(cursors, c, a, ids[..n], slots[..n], k);
    }
  }

  // ----- the ledger the allocator is seeded with

  /** Waiting for the campaign's first step. */
  predicate OnFirstStep(c: Cursor, campaign: CampaignId) {
    c.campaign == campaign && c.state == InProgress && c.step == 0
  }

  /** The due times of the first-step rows, in listing order. */
  function Ledger(cursors: map<TargetId, Cursor>, c: CampaignId, rows: seq<TargetId>): seq<Option<int>>
    requires forall k :: 0 <= k < |rows| ==> rows[k] in cursors
  {
    if rows == [] then []
    else
      var last := rows[|rows| - 1];
      Ledger(cursors, c, rows[..|rows| - 1]) + (if OnFirstStep(cursors[last], c) then [cursors[last].nextAt] else [])
  }

  /** The campaign's rows, each once, in whatever order the store lists them. */
  ghost predicate ListsCampaign(cursors: map<TargetId, Cursor>, c: CampaignId, rows: seq<TargetId>) {
    && Once(rows)
    && (forall k :: 0 <= k < |rows| ==> rows[k] in cursors)
    && (forall t :: t in cursors && cursors[t].campaign == c ==> t in rows)
  }

  /** The rows whose first step counts against a date. */
  function PendingOn(u: Setup, cursors: map<TargetId, Cursor>, c: CampaignId, day: int): set<TargetId> {
    set t | t in cursors && OnFirstStep(cursors[t], c) && u.ClaimDay(cursors[t].nextAt) == day
  }

  /** The same, spelled out: on the campaign's first step, with a due time that counts against the date. */
  function DueOn(cursors: map<TargetId, Cursor>, c: CampaignId, now: int, date: int): set<TargetId> {
    set t | t in cursors && cursors[t].campaign == c && cursors[t].state == InProgress && cursors[t].step == 0
            && CountsOn(now, cursors[t].nextAt, date)
  }

  lemma PendingIsDue(u: Setup, cursors: map<TargetId, Cursor>, c: CampaignId, date: int)
    ensures PendingOn(u, cursors, c, date) == DueOn(cursors, c, u.now, date)
  {
    forall t ensures t in PendingOn(u, cursors, c, date) <==> t in DueOn(cursors, c, u.now, date) {
    }
  }

  /** The listed rows whose first step counts against a date. */
  function Listed(u: Setup, cursors: map<TargetId, Cursor>, c: CampaignId, day: int, rows: seq<TargetId>): set<TargetId> {
    set t | t in PendingOn(u, cursors, c, day) && t in rows
  }

  lemma {:induction false} LedgerCountsRows(u: Setup, cursors: map<TargetId, Cursor>, c: CampaignId, rows: seq<TargetId>, day: int)
    requires Once(rows) && forall k :: 0 <= k < |rows| ==> rows[k] in cursors
    ensures Claims(u.FromLedger(Ledger(cursors, c, rows)), day) == |Listed(u, cursors, c, day, rows)|
  {
    if rows == [] {
      assert Listed(u, cursors, c, day, rows) == {};
    } else {
      var n := |rows| - 1;
      LedgerCountsRows(u, cursors, c, rows[..n], day);
      ListOneMore(u, cursors, c, day, rows);
      if OnFirstStep(cursors[rows[n]], c) {
        OneMoreDay(u, Ledger(cursors, c, rows[..n]), cursors[rows[n]].nextAt);
      } else {
        assert Ledger(cursors, c, rows) == Ledger(cursors, c, rows[..n]);
      }
    }
  }

  lemma ListOneMore(u: Setup, cursors: map<TargetId, Cursor>, c: CampaignId, day: int, rows: seq<TargetId>)
    requires rows != [] && Once(rows)
    ensures var last := rows[|rows| - 1];
            |Listed(u, cursors, c, day, rows)| == |Listed(u, cursors, c, day, rows[..|rows| - 1])|
                                                 + if last in PendingOn(u, cursors, c, day) then 1 else 0
  {
    var init, last := rows[..|rows| - 1], rows[|rows| - 1];
    assert rows == init + [last] && last !in init;
    assert Listed(u, cursors, c, day, rows)
        == Listed(u, cursors, c, day, init) + if last in PendingOn(u, cursors, c, day) then {last} else {};
  }

  lemma OneMoreDay(u: Setup, ledger: seq<Option<int>>, at: Option<int>)
    ensures u.FromLedger(ledger + [at]) == Bump(u.FromLedger(ledger), u.ClaimDay(at))
  {
    assert u.Days(ledger + [at]) == u.Days(ledger) + [u.ClaimDay(at)];
  }

  /** The allocator starts from the table as it stands. */
  lemma LedgerIsTheTable(u: Setup, cursors: map<TargetId, Cursor>, c: CampaignId, rows: seq<TargetId>, day: int)
    requires ListsCampaign(cursors, c, rows)
    ensures Claims(u.FromLedger(Ledger(cursors, c, rows)), day) == |PendingOn(u, cursors, c, day)|
    ensures |On(u.now, Ledger(cursors, c, rows), day)| == |DueOn(cursors, c, u.now, day)|
  {
    OnIsMultiplicity(u, Ledger(cursors, c, rows), day);
    ClaimsAreMultiplicity(u.Days(Ledger(cursors, c, rows)), day);
    PendingIsDue(u, cursors, c, day);
    LedgerCountsRows(u, cursors, c, rows, day);
    assert Listed(u, cursors, c, day, rows) == PendingOn(u, cursors, c, day);
  }

  // ----- the cap over a batch

  /** A date gains at most as many rows as slots were claimed on it: an id that had
      a row already, or that was listed before, claims a slot and stores nothing. */
  lemma {:induction false} RowsWithinClaims(u: Setup, ledger: seq<Option<int>>, cursors: map<TargetId, Cursor>, c: CampaignId, a: AccountId,
                                           ids: seq<TargetId>, day: int)
    ensures var r := EnrollRows(cursors, c, a, ids, Slots(u, ledger, |ids|));
            |PendingOn(u, r, c, day)| + Claims(u.FromLedger(ledger), day)
            <= |PendingOn(u, cursors, c, day)| + Claims(Filled(u, ledger, |ids|), day)
  {
    if ids != [] {
      var n := |ids| - 1;
      RowsWithinClaims(u, ledger, cursors, c, a, ids[..n], day);
      var slots := Slots(u, ledger, n);
      var at := u.Slot(NextOffset(u, Filled(u, ledger, n)));
      SlotsExtend(u, ledger, n, at);
      assert Slots(u, ledger, n + 1)[..n] == slots;
      OneMoreRow(u, EnrollRows(cursors, c, a, ids[..n], slots), c, a, ids[n], at, day);
    }
  }

  lemma OneMoreRow(u: Setup, cursors: map<TargetId, Cursor>, c: CampaignId, a: AccountId, t: TargetId, at: Option<int>, day: int)
    ensures var r := Insert(cursors, t, Cursor(c, a, InProgress, 0, at, None));
            |PendingOn(u, r, c, day)| <= |PendingOn(u, cursors, c, day)| + if u.ClaimDay(at) == day then 1 else 0
  {
    if t !in cursors {
      var r := cursors[t := Cursor(c, a, InProgress, 0, at, None)];
      assert PendingOn(u, r, c, day) == PendingOn(u, cursors, c, day) + if u.ClaimDay(at) == day then {t} else {};
    }
  }

  /** No date is packed past the cap, or past where it already stood, whatever the
      batch: new ids, enrolled ones and repeated ones alike. */
  lemma EnrolledWithinCap(u: Setup, cursors: map<TargetId, Cursor>, c: CampaignId, a: AccountId, rows: seq<TargetId>,
                          ids: seq<TargetId>, day: int)
    requires u.Valid() && ListsCampaign(cursors, c, rows)
    ensures var r := EnrollRows(cursors, c, a, ids, Slots(u, Ledger(cursors, c, rows), |ids|));
            var before := |DueOn(cursors, c, u.now, day)|;
            before <= |DueOn(r, c, u.now, day)| <= if before > u.cap then before else u.cap
  {
    var ledger := Ledger(cursors, c, rows);
    var r := EnrollRows(cursors, c, a, ids, Slots(u, ledger, |ids|));
    PendingIsDue(u, cursors, c, day);
    PendingIsDue(u, r, c, day);
    CalendarSpreads(u);
    LedgerIsTheTable(u, cursors, c, rows, day);
    RowsWithinClaims(u, ledger, cursors, c, a, ids, day);
    NeverPastCap(u.Rule(), u.cap, u.FromLedger(ledger), |ids|, day);
    OldRowsStay(cursors, c, a, ids, Slots(u, ledger, |ids|));
    SubsetIsSmaller(PendingOn(u, cursors, c, day), PendingOn(u, r, c, day));
  }

  // ----- the enrollment call

  /** What a batch is staggered against: nothing, or a setup and the committed due times. */
  datatype Seed = Unstaggered | Staggered(u: Setup, ledger: seq<Option<int>>)

  /** The first n slots a batch is handed: without an allocator everybody is due now. */
  ghost function Handed(seed: Seed, n: nat): (r: seq<Option<int>>)
    ensures |r| == n
  {
    match seed
    case Unstaggered => seq(n, _ => None)
    case Staggered(u, ledger) => Slots(u, ledger, n)
  }

  /** A batch is spread over days exactly when its first step is an action with a positive cap. */
  predicate Staggers(steps: seq<StepDef>, caps: ActionType -> int) {
    |steps| > 0 && steps[0].kind.Act? && caps(steps[0].kind.action) > 0
  }

  function SeedOf(steps: seq<StepDef>, caps: ActionType -> int, schedules: ActionType -> Schedule, now: int,
                  cursors: map<TargetId, Cursor>, c: CampaignId, rows: seq<TargetId>): Seed
    requires forall k :: 0 <= k < |rows| ==> rows[k] in cursors
  {
    if !Staggers(steps, caps) then Unstaggered
    else
      var first := steps[0].kind.action;
      Staggered(Setup(now, caps(first), schedules(first)), Ledger(cursors, c, rows))
  }

  /** What the call returns, a row being known by its target; an unknown id makes the insertion, and so the call, fail. */
  datatype EnrollResult =
    | Enrolled(progress: seq<TargetId>, skippedRemoved: nat, skippedElsewhere: nat)
    | UnknownTarget(t: TargetId)

  /** The whole effect of a call on the cursors. */
  ghost function EnrolledRows(w: World, seed: Seed, c: CampaignId, a: AccountId, ids: seq<TargetId>,
                              listings: TargetId -> seq<TargetId>): map<TargetId, Cursor> {
    RowsOf(w.cursors, seed, c, a, Judged(w, c, ids, listings, Admit))
  }

  function Reported(w: World, c: CampaignId, ids: seq<TargetId>, listings: TargetId -> seq<TargetId>): EnrollResult {
    Enrolled(Judged(w, c, ids, listings, Admit), |Judged(w, c, ids, listings, WasRemoved)|, |Judged(w, c, ids, listings, Elsewhere)|)
  }

  /** Each id considered is reported once. */
  lemma {:induction false} ReportedAddsUp(w: World, c: CampaignId, ids: seq<TargetId>, listings: TargetId -> seq<TargetId>)
    ensures var r := Reported(w, c, ids, listings);
            |r.progress| + r.skippedRemoved + r.skippedElsewhere == |ids|
  {
    if ids != [] {
      ReportedAddsUp(w, c, ids[..|ids| - 1], listings);
    }
  }

  class Enroller {
    const plan: Plan
    const store: FunnelStore

    constructor (plan: Plan, store: FunnelStore)
      ensures this.plan == plan && this.store == store
    {
      this.plan := plan;
      this.store := store;
    }

    method IsBlocked(t: TargetId, c: CampaignId, listing: seq<TargetId>) returns (blocked: bool)
      requires t in store.targets
      ensures blocked == FirstBlocker(store.W(), c, store.targets[t].person, listing).Some?
    {
      var p := store.targets[t].person;
      var i := 0;
      while i < |listing|
        invariant 0 <= i <= |listing|
        invariant FirstBlocker(store.W(), c, p, listing) == FirstBlocker(store.W(), c, p, listing[i..])
      {
        var other := listing[i];
        if other in store.targets && store.targets[other].person == p && store.targets[other].campaign != c
           && Contacted(store.targets[other].stage) {
          return true;
        }
        i := i + 1;
      }
      return false;
    }

    /** Insert unless a row exists: enrollment is idempotent. The row must refer to a target. */
    method InsertRow(t: TargetId, c: CampaignId, a: AccountId, slot: Option<int>) returns (ok: bool)
      modifies store`cursors
      ensures ok == (t in store.targets)
      ensures store.cursors == if ok then Insert(old(store.cursors), t, Cursor(c, a, InProgress, 0, slot, None)) else old(store.cursors)
    {
      ok := t in store.targets;
      if ok && t !in store.cursors {
        store.cursors := store.cursors[t := Cursor(c, a, InProgress, 0, slot, None)];
      }
    }

    /** The due times already committed to the campaign's first step. */
    method ReadLedger(c: CampaignId, rows: seq<TargetId>) returns (ledger: seq<Option<int>>)
      requires forall k :: 0 <= k < |rows| ==> rows[k] in store.cursors
      ensures ledger == Ledger(store.cursors, c, rows)
    {
      ledger := [];
      for i := 0 to |rows|
        invariant ledger == Ledger(store.cursors, c, rows[..i])
      {
        assert rows[..i + 1][..i] == rows[..i];
        if OnFirstStep(store.cursors[rows[i]], c) {
          ledger := ledger + [store.cursors[rows[i]].nextAt];
        }
      }
      assert rows[..|rows|] == rows;
    }

    /** An allocator over the committed due times, or none when nothing caps the first step. */
    method EnrollStagger(c: CampaignId, now: int, caps: ActionType -> int, schedules: ActionType -> Schedule, rows: seq<TargetId>)
        returns (allocator: StaggerAllocator?)
      requires forall k :: 0 <= k < |rows| ==> rows[k] in store.cursors
      requires forall kind :: schedules(kind).Valid()
      ensures allocator != null ==> fresh(allocator)
      ensures Seeded(allocator, SeedOf(plan.Steps(c), caps, schedules, now, store.cursors, c, rows), 0)
    {
      var steps := plan.Steps(c);
      if |steps| == 0 || steps[0].kind.Delay? {
        return null;
      }
      var first := steps[0].kind.action;
      if caps(first) <= 0 {
        return null;
      }
      var ledger := ReadLedger(c, rows);
      allocator := new StaggerAllocator(Setup(now, caps(first), schedules(first)), ledger);
    }

    /** One candidate: skip it, or claim the next slot and insert its row. */
    method Consider(t: TargetId, c: CampaignId, a: AccountId, listing: seq<TargetId>, allocator: StaggerAllocator?,
                    ghost seed: Seed, ghost n: nat)
        returns (verdict: Verdict, ok: bool)
      requires Seeded(allocator, seed, n)
      modifies store`cursors, allocator
      ensures verdict == Judge(old(store.W()), c, t, listing)
      ensures ok == (verdict.Admit? ==> t in store.targets)
      ensures Seeded(allocator, seed, if verdict.Admit? then n + 1 else n)
      ensures store.cursors == if ok && verdict.Admit? then Insert(old(store.cursors), t, RowAt(seed, c, a, n)) else old(store.cursors)
    {
      verdict, ok := Admit, true;
      if t in store.targets {
        if store.targets[t].removed {
          return WasRemoved, true;
        }
        var blocked := IsBlocked(t, c, listing);
        if blocked {
          return Elsewhere, true;
        }
      }
      var slot: Option<int> := None;
      if allocator != null {
        slot := allocator.Next();
        SlotsExtend(seed.u, seed.ledger, n, slot);
      }
      ok := InsertRow(t, c, a, slot);
    }

    /** The next id of a batch that began in w. */
    method EnrollOne(c: CampaignId, a: AccountId, t: TargetId, listings: TargetId -> seq<TargetId>, allocator: StaggerAllocator?,
                     counts: EnrollResult, ghost seed: Seed, ghost w: World, ghost ids: seq<TargetId>, ghost i: nat)
        returns (ok: bool, more: EnrollResult)
      requires i < |ids| && ids[i] == t && counts.Enrolled? && store.W() == w.(cursors := store.cursors)
      requires SoFar(w, seed, c, a, ids[..i], listings, store.cursors, counts) && Seeded(allocator, seed, |counts.progress|)
      modifies store`cursors, allocator
      ensures store.W() == w.(cursors := store.cursors)
      ensures !ok ==> Unknown(w, t) && store.cursors == old(store.cursors)
      ensures ok ==> !Unknown(w, t) && more.Enrolled? && Seeded(allocator, seed, |more.progress|)
      ensures ok ==> SoFar(w, seed, c, a, ids[..i + 1], listings, store.cursors, more)
    {
      SoFarNext(w, store.W(), seed, c, a, ids, i, listings, counts);
      var verdict;
      verdict, ok := Consider(t, c, a, listings(t), allocator, seed, |counts.progress|);
      more := Counted(counts, t, verdict);
    }

    /** The first n ids of a batch that began in w were considered: all of them known. */
    ghost predicate Considered(w: World, seed: Seed, c: CampaignId, a: AccountId, ids: seq<TargetId>, n: nat,
                               listings: TargetId -> seq<TargetId>, allocator: StaggerAllocator?, counts: EnrollResult)
      requires n <= |ids|
      reads this, store, allocator
    {
      && counts.Enrolled? && store.W() == w.(cursors := store.cursors)
      && Seeded(allocator, seed, |counts.progress|)
      && SoFar(w, seed, c, a, ids[..n], listings, store.cursors, counts)
      && KnownUpTo(w, ids, n)
    }

    method EnrollNext(c: CampaignId, a: AccountId, listings: TargetId -> seq<TargetId>, allocator: StaggerAllocator?,
                      counts: EnrollResult, ghost seed: Seed, ghost w: World, ids: seq<TargetId>, i: nat)
        returns (ok: bool, more: EnrollResult)
      requires i < |ids| && Considered(w, seed, c, a, ids, i, listings, allocator, counts)
      modifies store`cursors, allocator
      ensures !ok ==> Unknown(w, ids[i]) && store.W() == old(store.W())
      ensures ok ==> Considered(w, seed, c, a, ids, i + 1, listings, allocator, more)
    {
      ok, more := EnrollOne(c, a, ids[i], listings, allocator, counts, seed, w, ids, i);
      if ok {
        KnownOneMore(w, ids, i);
      }
    }

    /** One candidate after another, until one is unknown. */
    method EnrollEach(c: CampaignId, a: AccountId, ids: seq<TargetId>, listings: TargetId -> seq<TargetId>,
                      allocator: StaggerAllocator?, ghost seed: Seed)
        returns (counts: EnrollResult, reached: nat)
      requires Seeded(allocator, seed, 0)
      modifies store`cursors, allocator
      ensures reached <= |ids| && KnownUpTo(old(store.W()), ids, reached)
      ensures reached < |ids| ==> Unknown(old(store.W()), ids[reached])
      ensures SoFar(old(store.W()), seed, c, a, ids[..reached], listings, store.cursors, counts)
    {
      ghost var w := store.W();
      counts, reached := Enrolled([], 0, 0), 0;
      NothingYet(w, seed, c, a, ids, listings);
      while reached < |ids|
        invariant reached <= |ids| && Considered(w, seed, c, a, ids, reached, listings, allocator, counts)
      {
        var ok, more := EnrollNext(c, a, listings, allocator, counts, seed, w, ids, reached);
        if !ok {
          return;
        }
        counts, reached := more, reached + 1;
      }
    }

    /** Enroll a batch, one candidate after another; an unknown id ends it there. */
    method EnrollTargets(c: CampaignId, a: AccountId, ids: seq<TargetId>, listings: TargetId -> seq<TargetId>, now: int,
                         caps: ActionType -> int, schedules: ActionType -> Schedule, rows: seq<TargetId>)
        returns (r: EnrollResult)
      requires ListsCampaign(store.cursors, c, rows)
      requires forall kind :: schedules(kind).Valid()
      modifies store`cursors
      ensures var w, known := old(store.W()), Known(old(store.W()), ids);
              var seed := SeedOf(plan.Steps(c), caps, schedules, now, w.cursors, c, rows);
              && r == (if |known| < |ids| then UnknownTarget(ids[|known|]) else Reported(w, c, ids, listings))
              && store.cursors == EnrolledRows(w, seed, c, a, known, listings)
              && Spread(plan, c, now, caps, schedules, w.cursors, store.cursors)
    {
      ghost var w := store.W();
      ghost var seed := SeedOf(plan.Steps(c), caps, schedules, now, store.cursors, c, rows);
      var allocator := EnrollStagger(c, now, caps, schedules, rows);
      var counts, reached := EnrollEach(c, a, ids, listings, allocator, seed);
      KnownIs(w, ids, reached);
      BatchWithinCap(w, seed, c, a, ids[..reached], listings, rows);
      BatchTakesSlots(w, seed, c, a, ids[..reached], listings);
      if reached < |ids| {
        return UnknownTarget(ids[reached]);
      }
      assert ids[..reached] == ids;
      r := counts;
    }
  }

  /** The rows and the counts once these ids were considered. */
  ghost predicate SoFar(w: World, seed: Seed, c: CampaignId, a: AccountId, ids: seq<TargetId>,
                        listings: TargetId -> seq<TargetId>, cursors: map<TargetId, Cursor>, counts: EnrollResult) {
    cursors == EnrolledRows(w, seed, c, a, ids, listings) && counts == Reported(w, c, ids, listings)
  }

  /** One more id with its verdict. */
  function Counted(counts: EnrollResult, t: TargetId, verdict: Verdict): EnrollResult
    requires counts.Enrolled?
  {
    match verdict
    case Admit => counts.(progress := counts.progress + [t])
    case WasRemoved => counts.(skippedRemoved := counts.skippedRemoved + 1)
    case Elsewhere => counts.(skippedElsewhere := counts.skippedElsewhere + 1)
  }

  lemma SoFarNext(w: World, v: World, seed: Seed, c: CampaignId, a: AccountId, ids: seq<TargetId>, i: nat,
                  listings: TargetId -> seq<TargetId>, counts: EnrollResult)
    requires i < |ids| && counts.Enrolled? && v.targets == w.targets
    requires SoFar(w, seed, c, a, ids[..i], listings, v.cursors, counts)
    ensures var verdict := Judge(v, c, ids[i], listings(ids[i]));
            SoFar(w, seed, c, a, ids[..i + 1], listings,
                  if verdict.Admit? then Insert(v.cursors, ids[i], RowAt(seed, c, a, |counts.progress|)) else v.cursors,
                  Counted(counts, ids[i], verdict))
  {
    JudgeIgnoresCursors(w, v, c, ids[i], listings(ids[i]));
    CountsGrow(w, c, ids, i, listings);
    BatchGrows(w, seed, c, a, ids, i, listings);
    assert counts.progress + [] == counts.progress;
  }

  lemma NothingYet(w: World, seed: Seed, c: CampaignId, a: AccountId, ids: seq<TargetId>, listings: TargetId -> seq<TargetId>)
    ensures SoFar(w, seed, c, a, ids[..0], listings, w.cursors, Enrolled([], 0, 0))
  {
  }

  ghost predicate KnownUpTo(w: World, ids: seq<TargetId>, n: nat)
    requires n <= |ids|
  {
    forall k :: 0 <= k < n ==> !Unknown(w, ids[k])
  }

  lemma KnownOneMore(w: World, ids: seq<TargetId>, n: nat)
    requires n < |ids| && KnownUpTo(w, ids, n) && !Unknown(w, ids[n])
    ensures KnownUpTo(w, ids, n + 1)
  {
  }

  lemma {:induction false} KnownIs(w: World, ids: seq<TargetId>, i: nat)
    requires i <= |ids| && KnownUpTo(w, ids, i)
    requires i < |ids| ==> Unknown(w, ids[i])
    ensures Known(w, ids) == ids[..i]
  {
    var known := Known(w, ids);
    if |known| < i {
      assert false;
    }
    assert |known| <= i;
  }

  /** No date holds more first-step rows than the cap, unless it did before. */
  ghost predicate WithinCap(u: Setup, c: CampaignId, before: map<TargetId, Cursor>, after: map<TargetId, Cursor>) {
    forall day :: |DueOn(after, c, u.now, day)| <= AtMost(u.cap, |DueOn(before, c, u.now, day)|)
  }

  /** A batch is spread over days exactly when its first step is an action with a positive cap. Then no
      date gets past that cap or where it stood, and whoever is new waits for a slot of that action's
      schedule; otherwise whoever is new is due at once. */
  ghost predicate Spread(plan: Plan, c: CampaignId, now: int, caps: ActionType -> int, schedules: ActionType -> Schedule,
                         before: map<TargetId, Cursor>, after: map<TargetId, Cursor>) {
    if c in plan.steps && |plan.steps[c]| > 0 && plan.steps[c][0].kind.Act? && caps(plan.steps[c][0].kind.action) > 0 then
      var first := plan.steps[c][0].kind.action;
      && (forall day :: |DueOn(after, c, now, day)| <= AtMost(caps(first), |DueOn(before, c, now, day)|))
      && (forall t :: t in after && t !in before ==> IsSlot(now, schedules(first), after[t].nextAt))
    else forall t :: t in after && t !in before ==> after[t].nextAt == None
  }

  lemma {:induction false} NewRowsTakeSlots(cursors: map<TargetId, Cursor>, c: CampaignId, a: AccountId, ids: seq<TargetId>,
                                           slots: seq<Option<int>>, t: TargetId)
    requires |slots| == |ids|
    ensures var r := EnrollRows(cursors, c, a, ids, slots); t in r && t !in cursors ==> r[t].nextAt in slots
  {
    if ids != [] {
      NewRowsTakeSlots(cursors, c, a, ids[..|ids| - 1], slots[..|ids| - 1], t);
    }
  }

  /** Whoever is new got one of the slots handed out. */
  lemma BatchTakesSlots(w: World, seed: Seed, c: CampaignId, a: AccountId, ids: seq<TargetId>, listings: TargetId -> seq<TargetId>)
    ensures var r := EnrolledRows(w, seed, c, a, ids, listings);
            forall t :: t in r && t !in w.cursors ==>
              if seed.Staggered? then IsSlot(seed.u.now, seed.u.schedule, r[t].nextAt) else r[t].nextAt == None
  {
    var r := EnrolledRows(w, seed, c, a, ids, listings);
    var admitted := Judged(w, c, ids, listings, Admit);
    var slots := Handed(seed, |admitted|);
    forall t | t in r && t !in w.cursors
      ensures if seed.Staggered? then IsSlot(seed.u.now, seed.u.schedule, r[t].nextAt) else r[t].nextAt == None
    {
      NewRowsTakeSlots(w.cursors, c, a, admitted, slots, t);
      var i :| 0 <= i < |slots| && slots[i] == r[t].nextAt;
      if seed.Staggered? {
        SlotIsSlot(seed.u, Offsets(seed.u.Rule(), seed.u.cap, seed.u.FromLedger(seed.ledger), |admitted|)[i]);
      }
    }
  }

  function AtMost(cap: int, before: int): int {
    if before > cap then before else cap
  }

  /** The allocator has handed out n slots of its seed. */
  ghost predicate Seeded(allocator: StaggerAllocator?, seed: Seed, n: nat)
    reads allocator
  {
    && (allocator == null <==> seed.Unstaggered?)
    && (allocator != null ==> seed.u.Valid() && allocator.u == seed.u && allocator.occupancy == Filled(seed.u, seed.ledger, n))
  }

  lemma BatchWithinCap(w: World, seed: Seed, c: CampaignId, a: AccountId, ids: seq<TargetId>,
                       listings: TargetId -> seq<TargetId>, rows: seq<TargetId>)
    requires ListsCampaign(w.cursors, c, rows)
    requires seed.Staggered? ==> seed.u.Valid() && seed.ledger == Ledger(w.cursors, c, rows)
    ensures seed.Staggered? ==> WithinCap(seed.u, c, w.cursors, EnrolledRows(w, seed, c, a, ids, listings))
  {
    if seed.Staggered? {
      forall day
        ensures |DueOn(EnrolledRows(w, seed, c, a, ids, listings), c, seed.u.now, day)|
             <= AtMost(seed.u.cap, |DueOn(w.cursors, c, seed.u.now, day)|)
      {
        EnrolledWithinCap(seed.u, w.cursors, c, a, rows, Judged(w, c, ids, listings, Admit), day);
      }
    }
  }

  lemma JudgedNext(w: World, c: CampaignId, ids: seq<TargetId>, i: nat, listings: TargetId -> seq<TargetId>, v: Verdict)
    requires i < |ids|
    ensures Judged(w, c, ids[..i + 1], listings, v)
         == Judged(w, c, ids[..i], listings, v) + if Judge(w, c, ids[i], listings(ids[i])) == v then [ids[i]] else []
  {
    assert ids[..i + 1][..i] == ids[..i];
  }

  /** The rows once a list of admitted ids was enrolled. */
  ghost function RowsOf(cursors: map<TargetId, Cursor>, seed: Seed, c: CampaignId, a: AccountId, admitted: seq<TargetId>): map<TargetId, Cursor> {
    EnrollRows(cursors, c, a, admitted, Handed(seed, |admitted|))
  }

  /** The row the n-th admitted id would get. */
  ghost function RowAt(seed: Seed, c: CampaignId, a: AccountId, n: nat): Cursor {
    Cursor(c, a, InProgress, 0, Handed(seed, n + 1)[n], None)
  }

  lemma RowsNext(cursors: map<TargetId, Cursor>, seed: Seed, c: CampaignId, a: AccountId, admitted: seq<TargetId>, t: TargetId)
    ensures RowsOf(cursors, seed, c, a, admitted + [t])
         == Insert(RowsOf(cursors, seed, c, a, admitted), t, RowAt(seed, c, a, |admitted|))
  {
    HandedExtends(seed, |admitted|);
    assert (admitted + [t])[..|admitted|] == admitted;
  }

  /** One more id is counted under its verdict. */
  lemma CountsGrow(w: World, c: CampaignId, ids: seq<TargetId>, i: nat, listings: TargetId -> seq<TargetId>)
    requires i < |ids|
    ensures var verdict := Judge(w, c, ids[i], listings(ids[i]));
            var before, after := Reported(w, c, ids[..i], listings), Reported(w, c, ids[..i + 1], listings);
            && after.progress == before.progress + (if verdict.Admit? then [ids[i]] else [])
            && after.skippedRemoved == before.skippedRemoved + (if verdict.WasRemoved? then 1 else 0)
            && after.skippedElsewhere == before.skippedElsewhere + (if verdict.Elsewhere? then 1 else 0)
  {
    JudgedNext(w, c, ids, i, listings, Admit);
    JudgedNext(w, c, ids, i, listings, WasRemoved);
    JudgedNext(w, c, ids, i, listings, Elsewhere);
  }

  /** One more id that is let in, and has no row yet, stores the next slot. */
  lemma BatchGrows(w: World, seed: Seed, c: CampaignId, a: AccountId, ids: seq<TargetId>, i: nat, listings: TargetId -> seq<TargetId>)
    requires i < |ids|
    ensures var n := |Reported(w, c, ids[..i], listings).progress|;
            var rows := EnrolledRows(w, seed, c, a, ids[..i], listings);
            EnrolledRows(w, seed, c, a, ids[..i + 1], listings)
            == if Judge(w, c, ids[i], listings(ids[i])).Admit? then Insert(rows, ids[i], RowAt(seed, c, a, n)) else rows
  {
    var admitted := Judged(w, c, ids[..i], listings, Admit);
    JudgedNext(w, c, ids, i, listings, Admit);
    RowsNext(w.cursors, seed, c, a, admitted, ids[i]);
    assert admitted + [] == admitted;
  }

  lemma HandedExtends(seed: Seed, n: nat)
    ensures Handed(seed, n + 1)[..n] == Handed(seed, n)
  {
    if seed.Staggered? {
      SlotsExtend(seed.u, seed.ledger, n, seed.u.Slot(NextOffset(seed.u, Filled(seed.u, seed.ledger, n))));
    }
  }

  lemma JudgeIgnoresCursors(w: World, v: World, c: CampaignId, t: TargetId, listing: seq<TargetId>)
    requires v.targets == w.targets
    ensures Judge(v, c, t, listing) == Judge(w, c, t, listing)
  {
    if t in w.targets {
      BlockerIgnoresCursors(w, v, c, w.targets[t].person, listing);
    }
  }

  /** The contact check reads stages only. */
  lemma {:induction false} BlockerIgnoresCursors(w: World, v: World, c: CampaignId, p: Person, listing: seq<TargetId>)
    requires v.targets == w.targets
    ensures FirstBlocker(v, c, p, listing) == FirstBlocker(w, c, p, listing)
  {
    if listing != [] {
      BlockerIgnoresCursors(w, v, c, p, listing[1..]);
    }
  }
}
