/** The stale-invitation sweep: oldest first, with cooldowns, backoffs and a stop that
leaves the rest for a later pass. */
module Sweeper {
  import opened Wrappers
  import opened Actions
  import opened SafetyCounters
  import opened Sorting
  import opened FunnelWorld
  import opened FunnelLaws
  import opened FunnelRuns
  import opened FunnelStores
  import opened TickRuns
  import opened FunnelServices
  import opened InviteLedger
  import ActionRuns

  const MAX_PER_SWEEP := 100

  type InviteId = nat

  datatype Invite = Invite(id: InviteId, sentAt: Option<int>)
  datatype Aged = Aged(id: InviteId, sentAt: int)

  /** How one withdraw request answered. */
  datatype Answer = Ok | Throttle | Skip

  datatype Stopped = SweptAll | MaxReached | Throttled

  datatype Pacing = Pacing(batchSize: int, throttleBackoffMs: nat, maxBackoffMs: nat, maxConsecutiveThrottles: int) {
    /** Retries of one invite. */
    function Retries(): nat {
      if maxConsecutiveThrottles < 0 then 0 else maxConsecutiveThrottles
    }

    /** Successes between two cooldowns. */
    function Batch(): nat {
      if batchSize < 1 then 1 else batchSize
    }
  }

  // ----- which invites, in which order

  predicate NotLater(a: Aged, b: Aged) {
    a.sentAt <= b.sentAt
  }

  predicate OldestFirst(s: seq<Aged>) {
    forall i, j :: 0 <= i < j < |s| ==> s[i].sentAt <= s[j].sentAt
  }

  /** Invites old enough to sweep; one with an unknown send time never is. */
  function AgedOf(invites: seq<Invite>, cutoff: int): seq<Aged> {
    if invites == [] then []
    else
      var last := invites[|invites| - 1];
      AgedOf(invites[..|invites| - 1], cutoff)
        + (if last.sentAt.Some? && last.sentAt.value <= cutoff then [Aged(last.id, last.sentAt.value)] else [])
  }

  /** The stale invites, sorted oldest first; ties keep the order they were listed in. */
  method SelectAged(invites: seq<Invite>, cutoff: int) returns (aged: seq<Aged>)
    ensures OldestFirst(aged) && multiset(aged) == multiset(AgedOf(invites, cutoff))
    ensures forall x :: Peers(aged, NotLater, x) == Peers(AgedOf(invites, cutoff), NotLater, x)
  {
    var found: seq<Aged> := [];
    for i := 0 to |invites|
      invariant found == AgedOf(invites[..i], cutoff)
    {
      assert invites[..i + 1][..i] == invites[..i];
      if invites[i].sentAt.Some? && invites[i].sentAt.value <= cutoff {
        found := found + [Aged(invites[i].id, invites[i].sentAt.value)];
      }
    }
    assert invites[..|invites|] == invites;
    aged := StableSort(found, NotLater);
    assert forall i, j :: 0 <= i < j < |aged| ==> NotLater(aged[i], aged[j]);
  }

  lemma CountedMore<T>(s: seq<T>, x: T, y: T)
    ensures multiset(s + [x])[y] == multiset(s)[y] + if x == y then 1 else 0
  {
  }

  /** An invite is selected as often as it is listed, and exactly when its age is known and sufficient. */
  lemma {:induction false} AgedAre(invites: seq<Invite>, cutoff: int, id: InviteId, at: int)
    ensures multiset(AgedOf(invites, cutoff))[Aged(id, at)] == if at <= cutoff then multiset(invites)[Invite(id, Some(at))] else 0
  {
    if invites != [] {
      var init, last := invites[..|invites| - 1], invites[|invites| - 1];
      AgedAre(init, cutoff, id, at);
      assert invites == init + [last];
      CountedMore(init, last, Invite(id, Some(at)));
      if last.sentAt.Some? && last.sentAt.value <= cutoff {
        CountedMore(AgedOf(init, cutoff), Aged(last.id, last.sentAt.value), Aged(id, at));
      } else {
        assert AgedOf(invites, cutoff) == AgedOf(init, cutoff);
      }
    }
  }

  function Min(a: int, b: int): int {
    if a < b then a else b
  }

  /** How many of n elements `slice(0, end)` keeps: a negative end counts from the back. */
  function SliceLength(n: nat, end: int): (r: nat)
    ensures r <= n
  {
    if end >= 0 then Min(n, end) else if n + end > 0 then n + end else 0
  }

  /** One sweep is bounded by the cap whatever the caller asks, as long as it asks for
      no negative number; a negative one keeps all but that many. */
  lemma SweepSizeIsCappedIff(max: int)
    ensures (forall n: nat :: SliceLength(n, Min(max, MAX_PER_SWEEP)) <= 100) <==> max >= 0
  {
    if max < 0 {
      assert SliceLength(MAX_PER_SWEEP + 1 - max, Min(max, MAX_PER_SWEEP)) == MAX_PER_SWEEP + 1;
    }
  }

  /** The invites old enough, oldest first, each as often as it is listed, and the first hundred of them at most. */
  ghost predicate Selected(invites: seq<Invite>, cutoff: int, max: int, aged: seq<Aged>, stale: seq<Aged>) {
    && OldestFirst(aged)
    && (forall id, at :: multiset(aged)[Aged(id, at)] == if at <= cutoff then multiset(invites)[Invite(id, Some(at))] else 0)
    && stale <= aged
    && (max >= 0 ==> |stale| == Min(|aged|, Min(max, 100)))
    && (max < 0 ==> |stale| == if |aged| + max > 0 then |aged| + max else 0)
  }

  method SelectStale(invites: seq<Invite>, now: int, olderThanDays: int, max: int) returns (aged: seq<Aged>, stale: seq<Aged>)
    ensures Selected(invites, now - olderThanDays * 86_400_000, max, aged, stale)
  {
    ghost var cutoff := now - olderThanDays * 86_400_000;
    aged := SelectAged(invites, now - olderThanDays * 86_400_000);
    forall id, at ensures multiset(aged)[Aged(id, at)] == if at <= cutoff then multiset(invites)[Invite(id, Some(at))] else 0 {
      AgedAre(invites, cutoff, id, at);
    }
    stale := aged[..SliceLength(|aged|, Min(max, MAX_PER_SWEEP))];
  }

  // ----- one invite: retry through throttles

  /** The answer an invite ends with, trying from attempt k on. */
  function Verdict(answers: nat -> Answer, k: nat, retries: nat): Answer
    decreases if k < retries then retries - k else 0
  {
    if answers(k) == Throttle && k < retries then Verdict(answers, k + 1, retries) else answers(k)
  }

  /** How many attempts that takes. */
  function Tries(answers: nat -> Answer, k: nat, retries: nat): (n: nat)
    ensures n >= 1 && (k <= retries ==> k + n <= retries + 1)
    decreases if k < retries then retries - k else 0
  {
    if answers(k) == Throttle && k < retries then 1 + Tries(answers, k + 1, retries) else 1
  }

  /** An invite is given up exactly when every one of its retries+1 attempts is throttled. */
  lemma {:induction false} ThrottledOutIff(answers: nat -> Answer, k: nat, retries: nat)
    requires k <= retries
    ensures Verdict(answers, k, retries) == Throttle <==> forall j :: k <= j <= retries ==> answers(j) == Throttle
    ensures Verdict(answers, k, retries) == Throttle ==> Tries(answers, k, retries) == retries + 1 - k
    decreases retries - k
  {
    if k < retries && answers(k) == Throttle {
      ThrottledOutIff(answers, k + 1, retries);
    }
  }

  /** In the caller's terms: the first attempt and as many more as the ceiling says are throttled. */
  lemma GivenUpIff(answers: nat -> Answer, p: Pacing)
    ensures Verdict(answers, 0, p.Retries()) == Throttle
            <==> forall j: nat :: j == 0 || j <= p.maxConsecutiveThrottles ==> answers(j) == Throttle
  {
    ThrottledOutIff(answers, 0, p.Retries());
  }

  /** Every attempt on an invite but its last was throttled; the last gave the verdict. */
  lemma {:induction false} AttemptsEndInVerdict(answers: nat -> Answer, k: nat, retries: nat)
    ensures var n := Tries(answers, k, retries);
            (forall j :: k <= j < k + n - 1 ==> answers(j) == Throttle) && answers(k + n - 1) == Verdict(answers, k, retries)
    decreases if k < retries then retries - k else 0
  {
    if answers(k) == Throttle && k < retries {
      AttemptsEndInVerdict(answers, k + 1, retries);
    }
  }

  /** How many attempts on one invite were throttled. */
  function ThrottledOn(answers: nat -> Answer, retries: nat): nat {
    Tries(answers, 0, retries) - if Verdict(answers, 0, retries) == Throttle then 0 else 1
  }

  /** How many attempts on the first n invites were. */
  function ThrottledOver(answers: nat -> (nat -> Answer), retries: nat, n: nat): nat {
    if n == 0 then 0 else ThrottledOver(answers, retries, n - 1) + ThrottledOn(answers(n - 1), retries)
  }

  // ----- the sweep's own trace

  /** What the sweep does, in order. */
  datatype Move = Gap | Cooldown | Backoff(ms: nat) | Tried(i: nat, answer: Answer) | Done(i: nat)

  /** The retries of one invite after attempt k: each behind a wait that doubles up to the ceiling. */
  function RetriesFrom(i: nat, answers: nat -> Answer, k: nat, wait: nat, p: Pacing): seq<Move>
    decreases if k < p.Retries() then p.Retries() - k else 0
  {
    if answers(k) == Throttle && k < p.Retries() then
      [Backoff(if wait < p.maxBackoffMs then wait else p.maxBackoffMs), Tried(i, answers(k + 1))]
        + RetriesFrom(i, answers, k + 1, wait * 2, p)
    else []
  }

  function Pow2(k: nat): nat {
    if k == 0 then 1 else 2 * Pow2(k - 1)
  }

  lemma {:induction false} TwoMovesEach(i: nat, answers: nat -> Answer, k: nat, wait: nat, p: Pacing)
    ensures |RetriesFrom(i, answers, k, wait, p)| == 2 * (Tries(answers, k, p.Retries()) - 1)
    decreases if k < p.Retries() then p.Retries() - k else 0
  {
    if answers(k) == Throttle && k < p.Retries() {
      TwoMovesEach(i, answers, k + 1, wait * 2, p);
    }
  }

  /** Every retry stands behind one wait: the first one doubled once per retry before it, up to the ceiling. */
  lemma {:induction false} WaitsDouble(i: nat, answers: nat -> Answer, k: nat, wait: nat, p: Pacing, j: nat)
    requires j < Tries(answers, k, p.Retries()) - 1
    ensures var moves := RetriesFrom(i, answers, k, wait, p);
            && |moves| == 2 * (Tries(answers, k, p.Retries()) - 1)
            && moves[2 * j] == Backoff(if wait * Pow2(j) < p.maxBackoffMs then wait * Pow2(j) else p.maxBackoffMs)
            && moves[2 * j + 1] == Tried(i, answers(k + j + 1))
    decreases p.Retries() - k
  {
    TwoMovesEach(i, answers, k, wait, p);
    if j > 0 {
      WaitsDouble(i, answers, k + 1, wait * 2, p, j - 1);
      Doubled(wait, j);
      var moves := RetriesFrom(i, answers, k, wait, p);
      assert moves[2 * j] == RetriesFrom(i, answers, k + 1, wait * 2, p)[2 * (j - 1)];
    }
  }

  lemma Doubled(wait: nat, j: nat)
    requires j > 0
    ensures wait * Pow2(j) == wait * 2 * Pow2(j - 1)
  {
  }

  lemma RetriesUnfold(before: seq<Move>, i: nat, answers: nat -> Answer, k: nat, wait: nat, p: Pacing)
    requires answers(k) == Throttle && k < p.Retries()
    ensures before + RetriesFrom(i, answers, k, wait, p)
         == before + [Backoff(if wait < p.maxBackoffMs then wait else p.maxBackoffMs), Tried(i, answers(k + 1))]
            + RetriesFrom(i, answers, k + 1, wait * 2, p)
  {
  }

  /** Successes since the last cooldown. */
  function SinceCooldown(trace: seq<Move>): nat {
    if trace == [] then 0
    else
      var last := trace[|trace| - 1];
      if last.Cooldown? then 0
      else SinceCooldown(trace[..|trace| - 1]) + if last.Done? then 1 else 0
  }

  /** Never more successes than a batch without a cooldown, and no cooldown before a batch is full. */
  ghost predicate Paced(trace: seq<Move>, p: Pacing) {
    && (forall k :: 0 <= k <= |trace| ==> SinceCooldown(trace[..k]) <= if p.batchSize < 1 then 1 else p.batchSize)
    && (forall k :: 0 <= k < |trace| && trace[k].Cooldown? ==> p.batchSize <= SinceCooldown(trace[..k]))
  }

  function AttemptsOn(trace: seq<Move>, i: nat): nat {
    if trace == [] then 0
    else AttemptsOn(trace[..|trace| - 1], i) + if trace[|trace| - 1].Tried? && trace[|trace| - 1].i == i then 1 else 0
  }

  lemma PacedExtend(trace: seq<Move>, move: Move, p: Pacing)
    requires Paced(trace, p) && SinceCooldown(trace + [move]) <= p.Batch()
    requires move.Cooldown? ==> p.batchSize <= SinceCooldown(trace)
    ensures Paced(trace + [move], p)
  {
    var more := trace + [move];
    forall k | 0 <= k <= |more| ensures SinceCooldown(more[..k]) <= p.Batch() {
      if k <= |trace| {
        assert more[..k] == trace[..k];
      } else {
        assert more[..k] == more;
      }
    }
    forall k | 0 <= k < |more| && more[k].Cooldown? ensures p.batchSize <= SinceCooldown(more[..k]) {
      assert more[..k] == trace[..k];
    }
  }

  lemma TraceExtend(trace: seq<Move>, move: Move, i: nat)
    ensures SinceCooldown(trace + [move]) == if move.Cooldown? then 0 else SinceCooldown(trace) + if move.Done? then 1 else 0
    ensures AttemptsOn(trace + [move], i) == AttemptsOn(trace, i) + if move.Tried? && move.i == i then 1 else 0
  {
    assert (trace + [move])[..|trace|] == trace;
  }

  // ----- results of a prefix

  function Oks(verdicts: nat -> Answer, n: nat): seq<nat> {
    if n == 0 then [] else Oks(verdicts, n - 1) + (if verdicts(n - 1) == Ok then [n - 1] else [])
  }

  function Skips(verdicts: nat -> Answer, n: nat): nat {
    if n == 0 then 0 else Skips(verdicts, n - 1) + if verdicts(n - 1) == Skip then 1 else 0
  }

  /** Resolved invites are withdrawn or failed, never both; withdrawals stay in order. */
  lemma {:induction false} PrefixAddsUp(verdicts: nat -> Answer, n: nat)
    requires forall i :: 0 <= i < n ==> verdicts(i) != Throttle
    ensures |Oks(verdicts, n)| + Skips(verdicts, n) == n
    ensures forall j, k :: 0 <= j < k < |Oks(verdicts, n)| ==> Oks(verdicts, n)[j] < Oks(verdicts, n)[k]
    ensures forall j :: 0 <= j < |Oks(verdicts, n)| ==> Oks(verdicts, n)[j] < n
  {
    if n > 0 {
      PrefixAddsUp(verdicts, n - 1);
    }
  }

  /** The pacer after the first n invites: the latest of where it stood and the instants of
      the withdrawals among them. */
  function Charged(last: Option<int>, verdicts: nat -> Answer, instants: nat -> int, n: nat): (r: Option<int>)
    ensures forall i :: 0 <= i < n && verdicts(i) == Ok ==> r.Some? && instants(i) <= r.value
    ensures last.Some? ==> r.Some? && last.value <= r.value
    ensures r == last || exists i :: 0 <= i < n && verdicts(i) == Ok && r == Some(instants(i))
  {
    if n == 0 then last
    else
      var before := Charged(last, verdicts, instants, n - 1);
      if verdicts(n - 1) != Ok then before
      else Some(if before.Some? then Max(instants(n - 1), before.value) else instants(n - 1))
  }

  function InstantOf(last: map<AccountId, int>, a: AccountId): Option<int> {
    if a in last then Some(last[a]) else None
  }

  /** One more action of the account, at some instant. */
  function Recorded(last: map<AccountId, int>, a: AccountId, at: int): map<AccountId, int> {
    last[a := if a in last then Max(at, last[a]) else at]
  }

  /** The pacer table after the first n invites: the account's entry charged, the rest alone. */
  ghost predicate PacerAt(before: map<AccountId, int>, after: map<AccountId, int>, a: AccountId, verdicts: nat -> Answer,
                          instants: nat -> int, n: nat) {
    InstantOf(after, a) == Charged(InstantOf(before, a), verdicts, instants, n) && after - {a} == before - {a}
  }

  lemma PacerNext(before: map<AccountId, int>, after: map<AccountId, int>, a: AccountId, verdicts: nat -> Answer, instants: nat -> int, n: nat)
    requires PacerAt(before, after, a, verdicts, instants, n)
    ensures verdicts(n) == Skip ==> PacerAt(before, after, a, verdicts, instants, n + 1)
    ensures verdicts(n) == Ok ==> PacerAt(before, Recorded(after, a, instants(n)), a, verdicts, instants, n + 1)
  {
    assert Recorded(after, a, instants(n)) - {a} == after - {a};
  }

  /** The withdrawals among the first n invites come one after the other, from an instant on. */
  ghost predicate InTurn(from: int, verdicts: nat -> Answer, instants: nat -> int, n: nat) {
    && (forall i :: 0 <= i < n && verdicts(i) == Ok ==> from <= instants(i))
    && (forall i, j :: 0 <= i < j < n && verdicts(i) == Ok && verdicts(j) == Ok ==> instants(i) <= instants(j))
  }

  /** For the account's rate limits a sweep is a string of pacer charges, one per withdrawal,
      so every law about runs of actions holds across it. */
  lemma {:induction false} SweepIsCharges(env: ActionRuns.Env, s: ActionRuns.Ledger, verdicts: nat -> Answer, instants: nat -> int, n: nat)
      returns (states: seq<ActionRuns.Ledger>, events: seq<ActionRuns.Event>)
    requires InTurn(s.clock, verdicts, instants, n)
    ensures |states| == |events| + 1 && states[0] == s && |events| == |Oks(verdicts, n)|
    ensures forall i :: 0 <= i < |events| ==>
              events[i] == ActionRuns.Charge(instants(Oks(verdicts, n)[i])) && ActionRuns.Step(env, states[i], events[i], states[i + 1])
    ensures var t := states[|events|];
            t == s.(clock := t.clock, last := Charged(s.last, verdicts, instants, n))
            && (t.clock == s.clock || exists i :: 0 <= i < n && verdicts(i) == Ok && t.clock == instants(i))
  {
    if n == 0 {
      states, events := [s], [];
    } else {
      states, events := SweepIsCharges(env, s, verdicts, instants, n - 1);
      if verdicts(n - 1) == Ok {
        states, events := OneMoreCharge(env, states, events, instants(n - 1));
      }
    }
  }

  lemma OneMoreCharge(env: ActionRuns.Env, states: seq<ActionRuns.Ledger>, events: seq<ActionRuns.Event>, at: int)
      returns (states': seq<ActionRuns.Ledger>, events': seq<ActionRuns.Event>)
    requires |states| == |events| + 1 && states[|events|].clock <= at
    requires forall i :: 0 <= i < |events| ==> ActionRuns.Step(env, states[i], events[i], states[i + 1])
    ensures |states'| == |events'| + 1 && states'[0] == states[0] && events' == events + [ActionRuns.Charge(at)]
    ensures forall i :: 0 <= i < |events'| ==> ActionRuns.Step(env, states'[i], events'[i], states'[i + 1])
    ensures var t := states[|events|]; states'[|events'|] == t.(clock := at, last := ActionRuns.Later(t.last, at))
  {
    var t := states[|events|];
    states', events' := states + [t.(clock := at, last := ActionRuns.Later(t.last, at))], events + [ActionRuns.Charge(at)];
  }

  datatype SweepResult = SweepResult(    considered: nat, withdrawn: seq<Aged>, failed: nat, releasedCursors: nat, throttled: nat, remaining: int, stopped: Stopped)

  /** The first so many selected invites are resolved: withdrawn in order, or failed. */
  ghost predicate Progressed(stale: seq<Aged>, verdicts: nat -> Answer, reached: nat, withdrawn: seq<Aged>, failed: nat) {
    && reached <= |stale|
    && (forall i :: 0 <= i < reached ==> verdicts(i) != Throttle)
    && Picks(stale, Oks(verdicts, reached), withdrawn)
    && failed == Skips(verdicts, reached)
  }

  /** These invites, by their places in the selection. */
  ghost predicate Picks(stale: seq<Aged>, places: seq<nat>, picked: seq<Aged>) {
    |picked| == |places| && forall k :: 0 <= k < |picked| ==> places[k] < |stale| && picked[k] == stale[places[k]]
  }

  lemma PicksOneMore(stale: seq<Aged>, places: seq<nat>, picked: seq<Aged>, i: nat)
    requires Picks(stale, places, picked) && i < |stale|
    ensures Picks(stale, places + [i], picked + [stale[i]])
  {
  }

  lemma ProgressedNext(stale: seq<Aged>, verdicts: nat -> Answer, reached: nat, withdrawn: seq<Aged>, failed: nat)
    requires Progressed(stale, verdicts, reached, withdrawn, failed) && reached < |stale|
    ensures verdicts(reached) == Ok ==> Progressed(stale, verdicts, reached + 1, withdrawn + [stale[reached]], failed)
    ensures verdicts(reached) == Skip ==> Progressed(stale, verdicts, reached + 1, withdrawn, failed + 1)
  {
    var oks := Oks(verdicts, reached);
    if verdicts(reached) == Ok {
      PicksOneMore(stale, oks, withdrawn, reached);
    } else {
      assert oks + [] == oks;
    }
  }

  /** What one finished sweep reports, given how far it got. */
  ghost predicate Reports(aged: seq<Aged>, stale: seq<Aged>, verdicts: nat -> Answer, reached: nat, r: SweepResult) {
    && Progressed(stale, verdicts, reached, r.withdrawn, r.failed) && |stale| <= |aged|
    && (reached < |stale| ==> verdicts(reached) == Throttle)
    && r.considered == |stale|
    && r.remaining == |aged| - |r.withdrawn| - r.failed
    && r.stopped == if reached < |stale| then Throttled else if |stale| < |aged| then MaxReached else SweptAll
  }

  /** The considered invites are withdrawn, failed, or left; nothing remains exactly when
      the sweep completed; and the withdrawals are a subsequence, oldest first. */
  lemma ReportAddsUp(aged: seq<Aged>, stale: seq<Aged>, verdicts: nat -> Answer, reached: nat, r: SweepResult)
    requires OldestFirst(aged) && stale <= aged && Reports(aged, stale, verdicts, reached, r)
    ensures r.considered == |r.withdrawn| + r.failed + (|stale| - reached)
    ensures r.remaining >= 0 && (r.remaining == 0 <==> r.stopped == SweptAll)
    ensures OldestFirst(r.withdrawn)
    ensures r.stopped == Throttled ==> r.remaining >= 1
  {
    PrefixAddsUp(verdicts, reached);
    var oks := Oks(verdicts, reached);
    forall j, k | 0 <= j < k < |r.withdrawn| ensures r.withdrawn[j].sentAt <= r.withdrawn[k].sentAt {
      assert oks[j] < oks[k];
      assert stale[oks[j]] == aged[oks[j]] && stale[oks[k]] == aged[oks[k]];
    }
  }

  // ----- the leads it frees

  /** Each lead in turn is parked under the account when the sweep comes to it. */
  ghost predicate ParkedInTurn(w: World, a: AccountId, swept: seq<TargetId>)
    decreases |swept|
  {
    swept == [] || (Parked(w, swept[0]) && w.cursors[swept[0]].account == a
                    && ParkedInTurn(ReleaseParked(w, swept[0], ProgressState.Skipped), a, swept[1..]))
  }

  ghost function SweepAll(w: World, a: AccountId, swept: seq<TargetId>): World
    requires ParkedInTurn(w, a, swept)
    decreases |swept|
  {
    if swept == [] then w else SweepAll(ReleaseParked(w, swept[0], ProgressState.Skipped), a, swept[1..])
  }

  lemma {:induction false} SweepOneMore(w: World, a: AccountId, swept: seq<TargetId>, t: TargetId)
    requires ParkedInTurn(w, a, swept)
    requires var v := SweepAll(w, a, swept); Parked(v, t) && v.cursors[t].account == a
    ensures ParkedInTurn(w, a, swept + [t])
    ensures SweepAll(w, a, swept + [t]) == ReleaseParked(SweepAll(w, a, swept), t, ProgressState.Skipped)
    decreases |swept|
  {
    if swept == [] {
      assert swept + [t] == [t] && [t][1..] == [];
    } else {
      SweepOneMore(ReleaseParked(w, swept[0], ProgressState.Skipped), a, swept[1..], t);
      assert (swept + [t])[1..] == swept[1..] + [t];
    }
  }

  /** While the counter covers the pile, every freed lead takes exactly one off it. */
  lemma {:induction false} ReleasesMatch(w: World, a: AccountId, swept: seq<TargetId>, bound: nat)
    requires Covered(w, bound) && ParkedInTurn(w, a, swept)
    ensures OutstandingOf(SweepAll(w, a, swept), a) == OutstandingOf(w, a) - |swept|
    ensures Covered(SweepAll(w, a, swept), bound)
    decreases |swept|
  {
    if swept != [] {
      var t := swept[0];
      var v := ReleaseParked(w, t, ProgressState.Skipped);
      assert t in ParkedOf(w, a) && |ParkedOf(w, a)| <= OutstandingOf(w, a);
      OneLess(w, v, t, bound);
      ReleasesMatch(v, a, swept[1..], bound);
    }
  }

  /** A sweep is a run of single releases. */
  lemma {:induction false} SweepIsARun(plan: Plan, warm: set<TargetId>, w: World, a: AccountId, swept: seq<TargetId>)
      returns (worlds: seq<World>, events: seq<Event>)
    requires Inv(plan, warm, w) && ParkedInTurn(w, a, swept)
    ensures Run(plan, worlds, events) && worlds[0] == w && worlds[|worlds| - 1] == SweepAll(w, a, swept)
    ensures |events| == |swept| && forall k :: 0 <= k < |swept| ==> events[k] == InviteSwept(swept[k])
    decreases |swept|
  {
    if swept == [] {
      worlds, events := [w], [];
    } else {
      var v := ReleaseParked(w, swept[0], ProgressState.Skipped);
      assert Inv(plan, warm, v) by {
        ReleaseKept(plan, warm, w, swept[0], ProgressState.Skipped);
      }
      var ws, es := SweepIsARun(plan, warm, v, a, swept[1..]);
      RunCons(plan, w, InviteSwept(swept[0]), ws, es);
      worlds, events := [w] + ws, [InviteSwept(swept[0])] + es;
    }
  }

  // ----- the sweep

  /** Invite i of the sweep and its verdict. */
  function Verdicts(answers: nat -> (nat -> Answer), retries: nat): nat -> Answer {
    (i: nat) => Verdict(answers(i), 0, retries)
  }

  /** Which parked lead an invite belongs to, if any. */
  type Matcher = (InviteId, TargetId) -> bool

  /** What a sweep has counted so far. */
  datatype Tally = Tally(withdrawn: seq<Aged>, failed: nat, throttled: nat)

  /** The counts and the pacer once n invites are resolved and `tried` were attempted. */
  ghost predicate Tallied(a: AccountId, stale: seq<Aged>, answers: nat -> (nat -> Answer), retries: nat, instants: nat -> int,
                          n: nat, tried: nat, tally: Tally, before: map<AccountId, int>, after: map<AccountId, int>) {
    && Progressed(stale, Verdicts(answers, retries), n, tally.withdrawn, tally.failed)
    && tally.throttled == ThrottledOver(answers, retries, tried)
    && PacerAt(before, after, a, Verdicts(answers, retries), instants, n)
  }

  /** One invite more: given up, failed, or withdrawn. */
  lemma TallyNext(a: AccountId, stale: seq<Aged>, answers: nat -> (nat -> Answer), retries: nat, instants: nat -> int,
                  n: nat, tally: Tally, before: map<AccountId, int>, after: map<AccountId, int>)
    requires Tallied(a, stale, answers, retries, instants, n, n, tally, before, after) && n < |stale|
    ensures var verdict, t := Verdict(answers(n), 0, retries), tally.(throttled := tally.throttled + ThrottledOn(answers(n), retries));
            && (verdict == Throttle ==> Tallied(a, stale, answers, retries, instants, n, n + 1, t, before, after))
            && (verdict == Skip ==>
                  Tallied(a, stale, answers, retries, instants, n + 1, n + 1, t.(failed := t.failed + 1), before, after))
            && (verdict == Ok ==>
                  Tallied(a, stale, answers, retries, instants, n + 1, n + 1, t.(withdrawn := t.withdrawn + [stale[n]]),
                          before, Recorded(after, a, instants(n))))
  {
    ProgressedNext(stale, Verdicts(answers, retries), n, tally.withdrawn, tally.failed);
    PacerNext(before, after, a, Verdicts(answers, retries), instants, n);
  }

  class StaleInvitationSweeper {
    const store: FunnelStore
    const admin: LeadAdmin
    const pacer: ActionPacer
    const pacing: Pacing
    var trace: seq<Move>

    constructor (store: FunnelStore, admin: LeadAdmin, pacer: ActionPacer, pacing: Pacing)
      requires admin.store == store
      ensures this.store == store && this.admin == admin && this.pacer == pacer && this.pacing == pacing && trace == []
    {
      this.store := store;
      this.admin := admin;
      this.pacer := pacer;
      this.pacing := pacing;
      this.trace := [];
    }

    /** Attempt one invite, backing off and retrying through throttles. */
    method AttemptInvite(i: nat, answers: nat -> Answer) returns (outcome: Answer, throttles: nat)
      requires Paced(trace, pacing)
      modifies `trace
      ensures outcome == Verdict(answers, 0, pacing.Retries())
      ensures throttles == Tries(answers, 0, pacing.Retries()) - (if outcome == Throttle then 0 else 1)
      ensures trace == old(trace) + [Tried(i, answers(0))] + RetriesFrom(i, answers, 0, pacing.throttleBackoffMs, pacing)
      ensures AttemptsOn(trace, i) == AttemptsOn(old(trace), i) + Tries(answers, 0, pacing.Retries())
      ensures forall j: nat :: j != i ==> AttemptsOn(trace, j) == AttemptsOn(old(trace), j)
      ensures SinceCooldown(trace) == SinceCooldown(old(trace))
      ensures Paced(trace, pacing)
    {
      var consecutive: nat := 0;
      var backoff: nat := pacing.throttleBackoffMs;
      throttles := 0;
      outcome := answers(0);
      Log(Tried(i, outcome));
      while outcome == Throttle && consecutive < pacing.maxConsecutiveThrottles
        invariant outcome == answers(consecutive) && throttles == consecutive <= pacing.Retries()
        invariant Verdict(answers, 0, pacing.Retries()) == Verdict(answers, consecutive, pacing.Retries())
        invariant Tries(answers, 0, pacing.Retries()) == consecutive + Tries(answers, consecutive, pacing.Retries())
        invariant Retried(old(trace), i, answers, consecutive, backoff)
        decreases pacing.Retries() - consecutive
      {
        WaitAndRetry(old(trace), i, answers, consecutive, backoff);
        throttles := throttles + 1;
        consecutive := consecutive + 1;
        backoff := backoff * 2;
        outcome := answers(consecutive);
      }
      if outcome == Throttle {
        throttles := throttles + 1;
      }
    }

    /** Since `before`, invite i was tried after k waits, the next one being `wait`. */
    ghost predicate Retried(before: seq<Move>, i: nat, answers: nat -> Answer, k: nat, wait: nat)
      reads this
    {
      && before + [Tried(i, answers(0))] + RetriesFrom(i, answers, 0, pacing.throttleBackoffMs, pacing)
         == trace + RetriesFrom(i, answers, k, wait, pacing)
      && AttemptsOn(trace, i) == AttemptsOn(before, i) + k + 1
      && (forall j: nat :: j != i ==> AttemptsOn(trace, j) == AttemptsOn(before, j))
      && SinceCooldown(trace) == SinceCooldown(before)
      && Paced(trace, pacing)
    }

    /** Back off, then try the same invite again. */
    method WaitAndRetry(ghost before: seq<Move>, i: nat, answers: nat -> Answer, k: nat, wait: nat)
      requires Retried(before, i, answers, k, wait) && answers(k) == Throttle && k < pacing.Retries()
      modifies `trace
      ensures Retried(before, i, answers, k + 1, wait * 2)
    {
      RetriesUnfold(trace, i, answers, k, wait, pacing);
      ghost var start := trace;
      var pause := if wait < pacing.maxBackoffMs then wait else pacing.maxBackoffMs;
      Log(Backoff(pause));
      Log(Tried(i, answers(k + 1)));
      assert trace == start + [Backoff(pause), Tried(i, answers(k + 1))];
    }

    /** Note a move that is neither a cooldown nor a success. */
    method Log(move: Move)
      requires !move.Cooldown? && !move.Done? && Paced(trace, pacing)
      modifies `trace
      ensures trace == old(trace) + [move]
      ensures SinceCooldown(trace) == SinceCooldown(old(trace))
      ensures forall i: nat :: AttemptsOn(trace, i) == AttemptsOn(old(trace), i) + if move.Tried? && move.i == i then 1 else 0
      ensures Paced(trace, pacing)
    {
      ghost var before := trace;
      trace := trace + [move];
      forall i: nat ensures AttemptsOn(trace, i) == AttemptsOn(before, i) + if move.Tried? && move.i == i then 1 else 0 {
        TraceExtend(before, move, i);
      }
      TraceExtend(before, move, 0);
      assert before[..|before|] == before;
      PacedExtend(before, move, pacing);
    }

    /** One invite's turn: gap, cooldown if the batch is full, attempts. */
    method TakeTurn(i: nat, sinceCooldown: int, answers: nat -> Answer) returns (outcome: Answer, throttles: nat, since: int)
      requires sinceCooldown == SinceCooldown(trace) && Paced(trace, pacing)
      modifies `trace
      ensures outcome == Verdict(answers, 0, pacing.Retries())
      ensures throttles == Tries(answers, 0, pacing.Retries()) - (if outcome == Throttle then 0 else 1)
      ensures trace == old(trace) + (if i > 0 then [Gap] else []) + (if sinceCooldown >= pacing.batchSize then [Cooldown] else [])
                       + [Tried(i, answers(0))] + RetriesFrom(i, answers, 0, pacing.throttleBackoffMs, pacing)
      ensures AttemptsOn(trace, i) == AttemptsOn(old(trace), i) + Tries(answers, 0, pacing.Retries())
      ensures forall j: nat :: j != i ==> AttemptsOn(trace, j) == AttemptsOn(old(trace), j)
      ensures since == SinceCooldown(trace) < pacing.Batch() && Paced(trace, pacing)
    {
      since := Approach(i, sinceCooldown);
      outcome, throttles := AttemptInvite(i, answers);
    }

    /** A gap before every invite but the first, and a cooldown once the batch is full. */
    method Approach(i: nat, sinceCooldown: int) returns (since: int)
      requires sinceCooldown == SinceCooldown(trace) && Paced(trace, pacing)
      modifies `trace
      ensures trace == old(trace) + (if i > 0 then [Gap] else []) + if sinceCooldown >= pacing.batchSize then [Cooldown] else []
      ensures forall j: nat :: AttemptsOn(trace, j) == AttemptsOn(old(trace), j)
      ensures since == SinceCooldown(trace) < pacing.Batch() && Paced(trace, pacing)
    {
      since := sinceCooldown;
      if i > 0 {
        Log(Gap);
      }
      if since >= pacing.batchSize {
        CoolDown();
        since := 0;
      }
    }

    method CoolDown()
      requires Paced(trace, pacing) && pacing.batchSize <= SinceCooldown(trace)
      modifies `trace
      ensures trace == old(trace) + [Cooldown]
      ensures SinceCooldown(trace) == 0 && Paced(trace, pacing)
      ensures forall i: nat :: AttemptsOn(trace, i) == AttemptsOn(old(trace), i)
    {
      ghost var before := trace;
      trace := trace + [Cooldown];
      forall i: nat ensures AttemptsOn(trace, i) == AttemptsOn(before, i) {
        TraceExtend(before, Cooldown, i);
      }
      TraceExtend(before, Cooldown, 0);
      PacedExtend(before, Cooldown, pacing);
    }

    /** A withdrawal landed. */
    method Finish(i: nat)
      requires SinceCooldown(trace) < pacing.Batch() && Paced(trace, pacing)
      modifies `trace
      ensures SinceCooldown(trace) == SinceCooldown(old(trace)) + 1 && Paced(trace, pacing)
      ensures forall j: nat :: AttemptsOn(trace, j) == AttemptsOn(old(trace), j)
    {
      ghost var before := trace;
      trace := trace + [Done(i)];
      forall j: nat ensures AttemptsOn(trace, j) == AttemptsOn(before, j) {
        TraceExtend(before, Done(i), j);
      }
      TraceExtend(before, Done(i), 0);
      PacedExtend(before, Done(i), pacing);
    }

    /** Free the parked lead this invite belongs to, if there is one, and its place in the pile. */
    method FreeLead(a: AccountId, id: InviteId, matches: Matcher) returns (freed: Option<TargetId>)
      requires admin.store == store
      modifies store
      ensures freed.Some? ==> Parked(old(store.W()), freed.value) && old(store.W()).cursors[freed.value].account == a
                              && matches(id, freed.value)
                              && store.W() == ReleaseParked(old(store.W()), freed.value, ProgressState.Skipped)
      ensures freed.None? ==> store.W() == old(store.W())
                              && forall t :: Parked(old(store.W()), t) && old(store.W()).cursors[t].account == a && t in old(store.targets) ==> !matches(id, t)
    {
      var rows := store.AwaitingConnections();
      for k := 0 to |rows|
        invariant store.W() == old(store.W())
        invariant forall j :: 0 <= j < k && store.cursors[rows[j]].account == a && rows[j] in store.targets ==> !matches(id, rows[j])
      {
        var t := rows[k];
        if store.cursors[t].account == a && t in store.targets && matches(id, t) {
          var _ := admin.ReleaseWithdrawn(t, ProgressState.Skipped);
          return Some(t);
        }
      }
      forall t | Parked(old(store.W()), t) && old(store.W()).cursors[t].account == a && t in old(store.targets) ensures !matches(id, t) {
        assert t in rows;
      }
      return None;
    }

    /** The same, as the next release of a sweep that began in w. */
    method FreeInTurn(a: AccountId, id: InviteId, matches: Matcher, ghost w: World, ghost swept: seq<TargetId>)
        returns (freed: bool, ghost more: seq<TargetId>)
      requires admin.store == store && ParkedInTurn(w, a, swept) && store.W() == SweepAll(w, a, swept)
      modifies store
      ensures ParkedInTurn(w, a, more) && store.W() == SweepAll(w, a, more)
      ensures |more| == |swept| + if freed then 1 else 0
    {
      var lead := FreeLead(a, id, matches);
      freed, more := lead.Some?, swept;
      if lead.Some? {
        SweepOneMore(w, a, swept, lead.value);
        more := swept + [lead.value];
      }
    }

    /** A withdrawal landed: charge the pacer, free the lead, and note it. */
    method Withdrawn(i: nat, a: AccountId, id: InviteId, at: int, matches: Matcher, answers: nat -> (nat -> Answer),
                     ghost w: World, ghost swept: seq<TargetId>)
        returns (freed: bool, ghost more: seq<TargetId>)
      requires admin.store == store && this as object != store as object && this as object != pacer as object
      requires store as object != pacer as object
      requires ParkedInTurn(w, a, swept) && store.W() == SweepAll(w, a, swept)
      requires SinceCooldown(trace) < pacing.Batch() && Attempted(answers, i + 1)
      modifies `trace, store, pacer
      ensures ParkedInTurn(w, a, more) && store.W() == SweepAll(w, a, more) && |more| == |swept| + if freed then 1 else 0
      ensures pacer.last == Recorded(old(pacer.last), a, at)
      ensures SinceCooldown(trace) == SinceCooldown(old(trace)) + 1 && Attempted(answers, i + 1)
    {
      pacer.Record(a, at);
      freed, more := FreeInTurn(a, id, matches, w, swept);
      Finish(i);
    }

    /** Invite n's turn, as part of a sweep. */
    method TurnOf(n: nat, sinceCooldown: int, answers: nat -> (nat -> Answer)) returns (outcome: Answer, throttles: nat, since: int)
      requires sinceCooldown == SinceCooldown(trace) && Attempted(answers, n)
      modifies `trace
      ensures outcome == Verdict(answers(n), 0, pacing.Retries()) && throttles == ThrottledOn(answers(n), pacing.Retries())
      ensures since == SinceCooldown(trace) < pacing.Batch() && Attempted(answers, n + 1)
    {
      outcome, throttles, since := TakeTurn(n, sinceCooldown, answers(n));
    }

    /** The attempts so far: invites before `tried` were tried as often as their answers made necessary. */
    ghost predicate Attempted(answers: nat -> (nat -> Answer), tried: nat)
      reads this
    {
      && Paced(trace, pacing)
      && forall i: nat :: AttemptsOn(trace, i) == if i < tried then Tries(answers(i), 0, pacing.Retries()) else 0
    }

    /** The leads freed so far, and the store that leaves. */
    ghost predicate Freed(w: World, a: AccountId, swept: seq<TargetId>, released: nat)
      reads store
    {
      released == |swept| && ParkedInTurn(w, a, swept) && store.W() == SweepAll(w, a, swept)
    }

    /** A sweep that began with store w and pacer table `before`, n invites resolved and `tried` attempted. */
    ghost predicate SweptTo(a: AccountId, stale: seq<Aged>, answers: nat -> (nat -> Answer), instants: nat -> int, n: nat, tried: nat,
                            tally: Tally, released: nat, w: World, before: map<AccountId, int>, swept: seq<TargetId>)
      reads this, store, pacer
    {
      && Tallied(a, stale, answers, pacing.Retries(), instants, n, tried, tally, before, pacer.last)
      && Attempted(answers, tried)
      && Freed(w, a, swept, released)
    }

    lemma NothingSwept(a: AccountId, stale: seq<Aged>, answers: nat -> (nat -> Answer), instants: nat -> int)
      requires trace == []
      ensures SweptTo(a, stale, answers, instants, 0, 0, Tally([], 0, 0), 0, store.W(), pacer.last, []) && SinceCooldown(trace) == 0
    {
    }

    /** Invite n of the sweep, from its gap to its outcome. */
    method SweepOne(a: AccountId, stale: seq<Aged>, answers: nat -> (nat -> Answer), instants: nat -> int, matches: Matcher,
                    n: nat, sinceCooldown: int, tally: Tally, released: nat,
                    ghost w: World, ghost before: map<AccountId, int>, ghost swept: seq<TargetId>)
        returns (outcome: Answer, since: int, next: Tally, freed: nat, ghost more: seq<TargetId>)
      requires admin.store == store && this as object != store as object && this as object != pacer as object
      requires store as object != pacer as object && n < |stale|
      requires sinceCooldown == SinceCooldown(trace)
      requires SweptTo(a, stale, answers, instants, n, n, tally, released, w, before, swept)
      modifies `trace, store, pacer
      ensures outcome == Verdict(answers(n), 0, pacing.Retries())
      ensures since == SinceCooldown(trace)
      ensures SweptTo(a, stale, answers, instants, if outcome == Throttle then n else n + 1, n + 1, next, freed, w, before, more)
    {
      TallyNext(a, stale, answers, pacing.Retries(), instants, n, tally, before, pacer.last);
      var throttles;
      outcome, throttles, since := TurnOf(n, sinceCooldown, answers);
      next, freed, more := tally.(throttled := tally.throttled + throttles), released, swept;
      if outcome == Skip {
        next := next.(failed := next.failed + 1);
      } else if outcome == Ok {
        next := next.(withdrawn := next.withdrawn + [stale[n]]);
        var one: bool;
        one, more := Withdrawn(n, a, stale[n].id, instants(n), matches, answers, w, swept);
        freed := released + if one then 1 else 0;
        since := since + 1;
      }
    }

    /** Go through the selected invites until one is throttled out. `instants(i)` is the
        clock when invite i was withdrawn, if it was. */
    method Sweep(a: AccountId, stale: seq<Aged>, answers: nat -> (nat -> Answer), instants: nat -> int, matches: Matcher)
        returns (tally: Tally, released: nat, reached: nat, ghost swept: seq<TargetId>)
      requires admin.store == store && this as object != store as object && this as object != pacer as object
      requires store as object != pacer as object && trace == []
      modifies `trace, store, pacer
      ensures reached <= |stale| && (reached < |stale| ==> Verdict(answers(reached), 0, pacing.Retries()) == Throttle)
      ensures var tried := if reached < |stale| then reached + 1 else reached;
              SweptTo(a, stale, answers, instants, reached, tried, tally, released, old(store.W()), old(pacer.last), swept)
    {
      NothingSwept(a, stale, answers, instants);
      tally, released, reached, swept := Tally([], 0, 0), 0, 0, [];
      var since: int := 0;
      while reached < |stale|
        invariant reached <= |stale| && since == SinceCooldown(trace)
        invariant SweptTo(a, stale, answers, instants, reached, reached, tally, released, old(store.W()), old(pacer.last), swept)
      {
        var outcome;
        outcome, since, tally, released, swept :=
          SweepOne(a, stale, answers, instants, matches, reached, since, tally, released, old(store.W()), old(pacer.last), swept);
        if outcome == Throttle {
          return;
        }
        reached := reached + 1;
      }
    }

    /** Withdraw the account's oldest stale invites, and stop before hammering. */
    method WithdrawStale(a: AccountId, invites: seq<Invite>, now: int, olderThanDays: int, max: int, answers: nat -> (nat -> Answer),
                         instants: nat -> int, matches: Matcher)
        returns (r: SweepResult, aged: seq<Aged>, stale: seq<Aged>, reached: nat, ghost swept: seq<TargetId>)
      requires admin.store == store && this as object != store as object && this as object != pacer as object
      requires store as object != pacer as object
      modifies this, store, pacer
      ensures Selected(invites, now - olderThanDays * 86_400_000, max, aged, stale)
      ensures Reports(aged, stale, Verdicts(answers, pacing.Retries()), reached, r)
      ensures var tried := if reached < |stale| then reached + 1 else reached;
              r.throttled == ThrottledOver(answers, pacing.Retries(), tried) && Attempted(answers, tried)
      ensures PacerAt(old(pacer.last), pacer.last, a, Verdicts(answers, pacing.Retries()), instants, reached)
      ensures r.releasedCursors == |swept|
      ensures ParkedInTurn(old(store.W()), a, swept) && store.W() == SweepAll(old(store.W()), a, swept)
    {
      aged, stale := SelectStale(invites, now, olderThanDays, max);
      trace := [];
      var tally, released;
      tally, released, reached, swept := Sweep(a, stale, answers, instants, matches);
      var stopped := if reached < |stale| then Throttled else if |stale| < |aged| then MaxReached else SweptAll;
      var remaining := |aged| - |tally.withdrawn| - tally.failed;
      r := SweepResult(|stale|, tally.withdrawn, tally.failed, released, tally.throttled, remaining, stopped);
    }
  }
}
