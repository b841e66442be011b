/** The pacing scheduler: when one action may run, and which queued ones run now. */
module Scheduler {
  import opened Wrappers
  import opened WorkingHours
  import opened Sorting
  import Actions

  type ActionType = Actions.ActionType

  /** A queued action. Ids compare like the strings they are: totally. */
  datatype Queued = Queued(id: nat, kind: ActionType, scheduledAt: int, dedupKey: nat)

  datatype Decision = Allow | Defer | Deny

  datatype SkipReason = OutsideWorkingHours | NotDueYet | Duplicate | Denied | Deferred | BudgetExhausted

  datatype Skip = Skip(action: Queued, reason: SkipReason)

  /** The gaps are whole seconds. */
  datatype Config = Config(working: Window, minGapSeconds: int, maxGapSeconds: int) {
    /** A gap the jitter may draw: the span is empty when the bounds are crossed. */
    predicate MayDraw(gapMs: int) {
      minGapSeconds * 1000 <= gapMs <= (if maxGapSeconds > minGapSeconds then maxGapSeconds else minGapSeconds) * 1000
    }
  }

  /** The later of the action's own time and now, into the window, nudged by the gap, and into the window again. */
  method NextRunAt(c: Config, action: Queued, now: int, gapMs: int) returns (at: int, ghost first: int)
    requires c.MayDraw(gapMs)
    ensures c.working.NonEmpty() ==> InWorkingHours(c.working, at)
    ensures at >= action.scheduledAt + c.minGapSeconds * 1000 && at >= now + c.minGapSeconds * 1000
    ensures c.working.NonEmpty() ==> IsNextWorking(c.working, Actions.Max(action.scheduledAt, now), first)
                                     && IsNextWorking(c.working, first + gapMs, at)
  {
    var earliest := if action.scheduledAt > now then action.scheduledAt else now;
    var inWindow, _ := NextWorkingInstant(earliest, c.working);
    var jittered, _ := NextWorkingInstant(inWindow + gapMs, c.working);
    at, first := jittered, inWindow;
  }

  // ----- the order of a batch

  predicate Before(a: Queued, b: Queued) {
    a.scheduledAt < b.scheduledAt || (a.scheduledAt == b.scheduledAt && a.id <= b.id)
  }

  predicate Ordered(s: seq<Queued>) {
    forall i, j :: 0 <= i < j < |s| ==> Before(s[i], s[j])
  }

  /** By scheduled time, ties by id. */
  method Order(queue: seq<Queued>) returns (r: seq<Queued>)
    ensures forall i, j :: 0 <= i < j < |r| ==>
              r[i].scheduledAt < r[j].scheduledAt || (r[i].scheduledAt == r[j].scheduledAt && r[i].id <= r[j].id)
    ensures Ordered(r) && multiset(r) == multiset(queue)
    ensures forall a :: Peers(r, Before, a) == Peers(queue, Before, a)
  {
    r := StableSort(queue, Before);
    assert forall i, j :: 0 <= i < j < |r| ==> Before(r[i], r[j]);
  }

  predicate DistinctIds(s: seq<Queued>) {
    forall i, j :: 0 <= i < j < |s| ==> s[i].id != s[j].id
  }

  lemma SameFirst(a: seq<Queued>, b: seq<Queued>)
    requires Ordered(a) && Ordered(b) && multiset(a) == multiset(b) && DistinctIds(a) && a != [] && b != []
    ensures a[0] == b[0]
  {
    assert a[0] in multiset(a) && b[0] in multiset(b);
    assert a[0] in b && b[0] in a;
    var i :| 0 <= i < |a| && a[i] == b[0];
    var j :| 0 <= j < |b| && b[j] == a[0];
    assert a[0].id == a[i].id;
  }

  lemma SameRest(a: seq<Queued>, b: seq<Queued>)
    requires multiset(a) == multiset(b) && a != [] && b != [] && a[0] == b[0]
    ensures multiset(a[1..]) == multiset(b[1..])
  {
    assert a == [a[0]] + a[1..] && b == [b[0]] + b[1..];
    assert multiset(a) == multiset([a[0]]) + multiset(a[1..]);
    assert multiset(b) == multiset([b[0]]) + multiset(b[1..]);
    assert multiset(a[1..]) == multiset(a) - multiset([a[0]]);
    assert multiset(b[1..]) == multiset(b) - multiset([b[0]]);
  }

  /** With distinct ids there is one way to order a batch. */
  lemma {:induction false} OneOrder(a: seq<Queued>, b: seq<Queued>)
    requires Ordered(a) && Ordered(b) && multiset(a) == multiset(b) && DistinctIds(a)
    ensures a == b
  {
    assert |a| == |multiset(a)| && |b| == |multiset(b)|;
    if a != [] {
      SameFirst(a, b);
      SameRest(a, b);
      OneOrder(a[1..], b[1..]);
      assert a == [a[0]] + a[1..] && b == [b[0]] + b[1..];
    }
  }

  // ----- choosing

  /** What the account has left, and what the gate says of each action. */
  datatype Headroom = Headroom(caps: map<ActionType, int>, used: map<ActionType, int>, canAct: Queued -> Decision) {
    function Used(kind: ActionType): int {
      if kind in used then used[kind] else 0
    }

    /** No room for another of a type once so many were chosen. A type without a cap is never
        full: comparing with a missing number is false. */
    predicate Full(kind: ActionType, chosen: nat) {
      kind in caps && Used(kind) + chosen >= caps[kind]
    }

    /** How many more of a capped type the day takes. */
    function Left(kind: ActionType): nat
      requires kind in caps
    {
      if caps[kind] > Used(kind) then caps[kind] - Used(kind) else 0
    }
  }

  function CountOf(due: seq<Queued>, kind: ActionType): nat {
    if due == [] then 0 else CountOf(due[..|due| - 1], kind) + if due[|due| - 1].kind == kind then 1 else 0
  }

  predicate KeyTaken(due: seq<Queued>, key: nat) {
    exists i :: 0 <= i < |due| && due[i].dedupKey == key
  }

  /** Why the next action is passed over, given what was chosen so far; None chooses it. */
  function Reason(h: Headroom, now: int, due: seq<Queued>, a: Queued): Option<SkipReason> {
    if KeyTaken(due, a.dedupKey) then Some(Duplicate)
    else if a.scheduledAt > now then Some(NotDueYet)
    else if h.Full(a.kind, CountOf(due, a.kind)) then Some(BudgetExhausted)
    else match h.canAct(a)
      case Deny => Some(Denied)
      case Defer => Some(Deferred)
      case Allow => None
  }

  datatype Batch = Batch(due: seq<Queued>, skipped: seq<Skip>)

  /** Go through the ordered queue once. */
  function Choose(h: Headroom, now: int, ordered: seq<Queued>): Batch {
    if ordered == [] then Batch([], [])
    else
      var before := Choose(h, now, ordered[..|ordered| - 1]);
      var a := ordered[|ordered| - 1];
      var reason := Reason(h, now, before.due, a);
      if reason.None? then Batch(before.due + [a], before.skipped)
      else Batch(before.due, before.skipped + [Skip(a, reason.value)])
  }

  /** The chosen actions of a type, by their places. */
  function OfType(due: seq<Queued>, kind: ActionType): set<nat> {
    set i: nat | i < |due| && due[i].kind == kind
  }

  lemma {:induction false} CountIsPlaces(due: seq<Queued>, kind: ActionType)
    ensures CountOf(due, kind) == |OfType(due, kind)|
  {
    if due == [] {
      assert OfType(due, kind) == {};
    } else {
      var n: nat := |due| - 1;
      CountIsPlaces(due[..n], kind);
      forall i: nat ensures i in OfType(due, kind) <==> i in OfType(due[..n], kind) || (i == n && due[n].kind == kind) {
        assert i < n ==> due[..n][i] == due[i];
      }
      if due[n].kind == kind {
        assert OfType(due, kind) == OfType(due[..n], kind) + {n};
      } else {
        assert OfType(due, kind) == OfType(due[..n], kind);
      }
    }
  }

  /** The k-th action of the ordered queue, given the ones chosen before it: the first reason that
      holds passes it over, and without one it is chosen. */
  ghost predicate ChosenOrPassedOver(h: Headroom, now: int, a: Queued, before: Batch, after: Batch) {
    var due := before.due;
    if exists i :: 0 <= i < |due| && due[i].dedupKey == a.dedupKey then after == Batch(due, before.skipped + [Skip(a, Duplicate)])
    else if now < a.scheduledAt then after == Batch(due, before.skipped + [Skip(a, NotDueYet)])
    else if a.kind in h.caps && h.caps[a.kind] <= (if a.kind in h.used then h.used[a.kind] else 0) + |OfType(due, a.kind)| then
      after == Batch(due, before.skipped + [Skip(a, BudgetExhausted)])
    else match h.canAct(a)
      case Deny => after == Batch(due, before.skipped + [Skip(a, Denied)])
      case Defer => after == Batch(due, before.skipped + [Skip(a, Deferred)])
      case Allow => after == Batch(due + [a], before.skipped)
  }

  lemma EachInTurn(h: Headroom, now: int, ordered: seq<Queued>, k: nat)
    requires k < |ordered|
    ensures ChosenOrPassedOver(h, now, ordered[k], Choose(h, now, ordered[..k]), Choose(h, now, ordered[..k + 1]))
    ensures Choose(h, now, ordered[..0]) == Batch([], [])
  {
    assert ordered[..k + 1][..k] == ordered[..k];
    CountIsPlaces(Choose(h, now, ordered[..k]).due, ordered[k].kind);
  }

  function SkippedActions(s: seq<Skip>): seq<Queued> {
    seq(|s|, i requires 0 <= i < |s| => s[i].action)
  }

  /** Nothing is lost and nothing invented: every queued action is chosen or skipped, once. */
  lemma {:induction false} ChoosePartitions(h: Headroom, now: int, ordered: seq<Queued>)
    ensures var b := Choose(h, now, ordered);
            multiset(b.due) + multiset(SkippedActions(b.skipped)) == multiset(ordered)
  {
    if ordered != [] {
      var init, a := ordered[..|ordered| - 1], ordered[|ordered| - 1];
      ChoosePartitions(h, now, init);
      assert ordered == init + [a];
      var before := Choose(h, now, init);
      var reason := Reason(h, now, before.due, a);
      if reason.Some? {
        OneMoreSkipped(before.skipped, Skip(a, reason.value));
      }
    }
  }

  lemma OneMoreSkipped(skipped: seq<Skip>, s: Skip)
    ensures multiset(SkippedActions(skipped + [s])) == multiset(SkippedActions(skipped)) + multiset{s.action}
  {
    assert SkippedActions(skipped + [s]) == SkippedActions(skipped) + [s.action];
  }

  predicate KeysUnique(due: seq<Queued>) {
    forall i, j :: 0 <= i < j < |due| ==> due[i].dedupKey != due[j].dedupKey
  }

  lemma {:induction false} ChosenKeysDiffer(h: Headroom, now: int, ordered: seq<Queued>)
    ensures KeysUnique(Choose(h, now, ordered).due)
  {
    if ordered != [] {
      ChosenKeysDiffer(h, now, ordered[..|ordered| - 1]);
    }
  }

  /** The chosen ones carry distinct keys, stay in order, are due, and are allowed. */
  lemma {:induction false} ChosenAreSound(h: Headroom, now: int, ordered: seq<Queued>)
    requires Ordered(ordered)
    ensures var due := Choose(h, now, ordered).due;
            && KeysUnique(due) && Ordered(due)
            && (forall i :: 0 <= i < |due| ==> due[i] in ordered && due[i].scheduledAt <= now && h.canAct(due[i]) == Allow)
  {
    ChosenKeysDiffer(h, now, ordered);
    if ordered != [] {
      ChosenAreSound(h, now, ordered[..|ordered| - 1]);
      var due := Choose(h, now, ordered[..|ordered| - 1]).due;
      forall i | 0 <= i < |due| ensures Before(due[i], ordered[|ordered| - 1]) {
        var k :| 0 <= k < |ordered| - 1 && ordered[k] == due[i];
      }
    }
  }

  lemma CountNext(due: seq<Queued>, a: Queued, kind: ActionType)
    ensures CountOf(due + [a], kind) == CountOf(due, kind) + if a.kind == kind then 1 else 0
  {
    assert (due + [a])[..|due|] == due;
  }

  /** One action of a type with room left keeps the type within it. */
  lemma RoomForOne(h: Headroom, now: int, due: seq<Queued>, a: Queued, kind: ActionType)
    requires kind in h.caps && CountOf(due, kind) <= h.Left(kind) && Reason(h, now, due, a).None?
    ensures CountOf(due + [a], kind) <= h.Left(kind)
  {
    CountNext(due, a, kind);
  }

  /** No capped type is chosen more often than it has room for. */
  lemma {:induction false} ChosenWithinCap(h: Headroom, now: int, ordered: seq<Queued>, kind: ActionType)
    requires kind in h.caps
    ensures CountOf(Choose(h, now, ordered).due, kind) <= h.Left(kind)
  {
    if ordered != [] {
      var before, a := Choose(h, now, ordered[..|ordered| - 1]).due, ordered[|ordered| - 1];
      ChosenWithinCap(h, now, ordered[..|ordered| - 1], kind);
      if Reason(h, now, before, a).None? {
        RoomForOne(h, now, before, a, kind);
      }
    }
  }

  /** A type without a cap is limited by nothing here: all of its allowed, due, distinct actions run. */
  lemma {:induction false} MissingCapMeansNoLimit(h: Headroom, now: int, ordered: seq<Queued>, kind: ActionType)
    requires kind !in h.caps && KeysUnique(ordered)
    requires forall i :: 0 <= i < |ordered| ==>
               ordered[i].kind == kind && ordered[i].scheduledAt <= now && h.canAct(ordered[i]) == Allow
    ensures Choose(h, now, ordered) == Batch(ordered, [])
  {
    if ordered != [] {
      MissingCapMeansNoLimit(h, now, ordered[..|ordered| - 1], kind);
      assert ordered == ordered[..|ordered| - 1] + [ordered[|ordered| - 1]];
    }
  }

  /** The reason given for a skip is true of the chosen actions. */
  predicate ForCause(h: Headroom, now: int, due: seq<Queued>, s: Skip) {
    match s.reason
    case Duplicate => KeyTaken(due, s.action.dedupKey)
    case NotDueYet => s.action.scheduledAt > now
    case BudgetExhausted => h.Full(s.action.kind, CountOf(due, s.action.kind))
    case Denied => h.canAct(s.action) == Deny
    case Deferred => h.canAct(s.action) == Defer
    case OutsideWorkingHours => false
  }

  /** Choosing more only strengthens a reason. */
  lemma CauseStays(h: Headroom, now: int, due: seq<Queued>, a: Queued, s: Skip)
    requires ForCause(h, now, due, s)
    ensures ForCause(h, now, due + [a], s)
  {
    ChosenNext(due, a);
  }

  /** Nothing is passed over needlessly: an allowed action that is due was beaten to its
      key, or its type is full. */
  lemma {:induction false} SkippedForCause(h: Headroom, now: int, ordered: seq<Queued>, k: nat)
    requires k < |Choose(h, now, ordered).skipped|
    ensures ForCause(h, now, Choose(h, now, ordered).due, Choose(h, now, ordered).skipped[k])
  {
    var init, a := ordered[..|ordered| - 1], ordered[|ordered| - 1];
    var before := Choose(h, now, init);
    if k < |before.skipped| {
      SkippedForCause(h, now, init, k);
      CauseStays(h, now, before.due, a, before.skipped[k]);
    }
  }

  // ----- the batch

  /** The queued actions that run now, and why the others do not. */
  method DueActions(c: Config, h: Headroom, queue: seq<Queued>, now: int) returns (due: seq<Queued>, skipped: seq<Skip>, ordered: seq<Queued>)
    ensures Ordered(ordered) && multiset(ordered) == multiset(queue)
    ensures if InWorkingHours(c.working, now) then Batch(due, skipped) == Choose(h, now, ordered)
            else due == [] && skipped == seq(|queue|, i requires 0 <= i < |queue| => Skip(queue[i], OutsideWorkingHours))
  {
    OpenByHour(c.working, now);
    due, skipped := [], [];
    ordered := Order(queue);
    if !c.working.OpenAt(now) {
      for i := 0 to |queue|
        invariant |skipped| == i && forall j :: 0 <= j < i ==> skipped[j] == Skip(queue[j], OutsideWorkingHours)
      {
        skipped := skipped + [Skip(queue[i], OutsideWorkingHours)];
      }
      return;
    }
    var selectedByType: map<ActionType, nat> := map[];
    var seenDedup: set<nat> := {};
    for i := 0 to |ordered|
      invariant Batch(due, skipped) == Choose(h, now, ordered[..i])
      invariant forall key :: key in seenDedup <==> KeyTaken(due, key)
      invariant forall kind :: Tally(selectedByType, kind) == CountOf(due, kind)
    {
      assert ordered[..i + 1][..i] == ordered[..i];
      var action := ordered[i];
      var already := Tally(selectedByType, action.kind);
      if action.dedupKey in seenDedup {
        skipped := skipped + [Skip(action, Duplicate)];
      } else if action.scheduledAt > now {
        skipped := skipped + [Skip(action, NotDueYet)];
      } else if h.Full(action.kind, already) {
        skipped := skipped + [Skip(action, BudgetExhausted)];
      } else if h.canAct(action) == Deny {
        skipped := skipped + [Skip(action, Denied)];
      } else if h.canAct(action) == Defer {
        skipped := skipped + [Skip(action, Deferred)];
      } else {
        ChosenNext(due, action);
        due := due + [action];
        seenDedup := seenDedup + {action.dedupKey};
        selectedByType := selectedByType[action.kind := already + 1];
      }
    }
    assert ordered[..|ordered|] == ordered;
  }

  function Tally(selected: map<ActionType, nat>, kind: ActionType): nat {
    if kind in selected then selected[kind] else 0
  }

  lemma ChosenNext(due: seq<Queued>, a: Queued)
    ensures forall key :: KeyTaken(due + [a], key) <==> KeyTaken(due, key) || key == a.dedupKey
    ensures forall kind :: CountOf(due + [a], kind) == CountOf(due, kind) + if a.kind == kind then 1 else 0
  {
    forall kind ensures CountOf(due + [a], kind) == CountOf(due, kind) + if a.kind == kind then 1 else 0 {
      CountNext(due, a, kind);
    }
    forall key ensures KeyTaken(due + [a], key) <==> KeyTaken(due, key) || key == a.dedupKey {
      assert (due + [a])[|due|] == a;
      if KeyTaken(due, key) {
        var i :| 0 <= i < |due| && due[i].dedupKey == key;
        assert (due + [a])[i] == due[i];
      }
    }
  }

  /** The order the queue arrives in does not matter when ids are distinct. */
  lemma BatchIgnoresQueueOrder(h: Headroom, now: int, queue: seq<Queued>, shuffled: seq<Queued>, a: seq<Queued>, b: seq<Queued>)
    requires multiset(queue) == multiset(shuffled) && DistinctIds(queue)
    requires Ordered(a) && multiset(a) == multiset(queue) && Ordered(b) && multiset(b) == multiset(shuffled)
    ensures Choose(h, now, a) == Choose(h, now, b)
  {
    DistinctIdsShuffled(queue, a);
    OneOrder(a, b);
  }

  lemma DistinctIdsShuffled(a: seq<Queued>, b: seq<Queued>)
    requires multiset(a) == multiset(b) && DistinctIds(a)
    ensures DistinctIds(b)
  {
    DistinctShuffled(a, b);
    forall i, j | 0 <= i < j < |b| ensures b[i].id != b[j].id {
      assert b[i] in multiset(b) && b[j] in multiset(b);
      assert b[i] in a && b[j] in a;
    }
  }
}
