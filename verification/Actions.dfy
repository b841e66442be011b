/** The vocabulary shared by the safety gate, the executor and the funnel, and
the counting functions the rate limits are stated with. */
module Actions {
  import opened Wrappers

  type AccountId = nat

  datatype ActionType = Connect | Message | ViewProfile | Follow | WithdrawInvite | React

  /** What an action row says. */
  datatype ActionResult = Pending | Success | Failed | Skipped

  datatype ActionRow = ActionRow(kind: ActionType, scheduledAt: int, executedAt: Option<int>, result: ActionResult) {

    /** The instant every rehydration reads: executedAt, else scheduledAt. */
    function When(): int {
      if executedAt.Some? then executedAt.value else scheduledAt
    }
  }

  function Max(a: int, b: int): int {
    if a >= b then a else b
  }

  // ----- counting instants

  /** How many instants are at or after `lo`. */
  function CountFrom(xs: seq<int>, lo: int): nat {
    if xs == [] then 0
    else CountFrom(xs[..|xs| - 1], lo) + (if xs[|xs| - 1] >= lo then 1 else 0)
  }

  /** How many instants lie in (lo, hi]. */
  function CountIn(xs: seq<int>, lo: int, hi: int): nat {
    if xs == [] then 0
    else CountIn(xs[..|xs| - 1], lo, hi) + (if lo < xs[|xs| - 1] <= hi then 1 else 0)
  }

  /** The instants at or after `lo`, in order: what opportunistic pruning keeps. */
  function KeepFrom(xs: seq<int>, lo: int): seq<int> {
    if xs == [] then []
    else KeepFrom(xs[..|xs| - 1], lo) + (if xs[|xs| - 1] >= lo then [xs[|xs| - 1]] else [])
  }

  lemma AppendCounts(xs: seq<int>, t: int, lo: int, hi: int)
    ensures CountFrom(xs + [t], lo) == CountFrom(xs, lo) + (if t >= lo then 1 else 0)
    ensures CountIn(xs + [t], lo, hi) == CountIn(xs, lo, hi) + (if lo < t <= hi then 1 else 0)
  {
    assert (xs + [t])[..|xs|] == xs;
  }

  lemma {:induction false} PruningKeepsLaterCounts(xs: seq<int>, lo: int, later: int)
    requires lo <= later
    ensures CountFrom(KeepFrom(xs, lo), later) == CountFrom(xs, later)
    ensures |KeepFrom(xs, lo)| == CountFrom(xs, lo)
    ensures forall x :: x in KeepFrom(xs, lo) ==> x in xs
  {
    if xs != [] {
      var init, t := xs[..|xs| - 1], xs[|xs| - 1];
      PruningKeepsLaterCounts(init, lo, later);
      AppendCounts(KeepFrom(init, lo), t, later, later);
      assert KeepFrom(init, lo) + [] == KeepFrom(init, lo);
    }
  }

  ghost predicate NoneAfter(xs: seq<int>, hi: int) {
    forall i :: 0 <= i < |xs| ==> xs[i] <= hi
  }

  /** When nothing is later than `hi`, a window ending at `hi` or after is a plain count. */
  lemma {:induction false} WindowIsCountFrom(xs: seq<int>, lo: int, hi: int)
    requires NoneAfter(xs, hi)
    ensures CountIn(xs, lo, hi) == CountFrom(xs, lo + 1)
  {
    if xs != [] {
      WindowIsCountFrom(xs[..|xs| - 1], lo, hi);
    }
  }

  /** A window that starts later holds no more, when nothing lies above the first one's end. */
  lemma {:induction false} NarrowerWindow(xs: seq<int>, lo: int, hi: int, lo': int, hi': int)
    requires lo <= lo'
    requires NoneAfter(xs, hi)
    ensures CountIn(xs, lo', hi') <= CountIn(xs, lo, hi)
  {
    if xs != [] {
      NarrowerWindow(xs[..|xs| - 1], lo, hi, lo', hi');
    }
  }

  lemma {:induction false} WindowsAdd(xs: seq<int>, lo: int, mid: int, hi: int)
    requires lo <= mid <= hi
    ensures CountIn(xs, lo, hi) == CountIn(xs, lo, mid) + CountIn(xs, mid, hi)
  {
    if xs != [] {
      WindowsAdd(xs[..|xs| - 1], lo, mid, hi);
    }
  }

  // ----- the action log

  /** When the account's successful actions of one kind ran, in row order. */
  function Stamps(rows: seq<ActionRow>, kind: ActionType): seq<int> {
    if rows == [] then []
    else
      var last := rows[|rows| - 1];
      Stamps(rows[..|rows| - 1], kind) + (if last.kind == kind && last.result == Success then [last.When()] else [])
  }

  /** When the account's actions of any kind finished, in row order. */
  function Completions(rows: seq<ActionRow>): seq<int> {
    if rows == [] then []
    else
      var last := rows[|rows| - 1];
      Completions(rows[..|rows| - 1]) + (if last.executedAt.Some? then [last.executedAt.value] else [])
  }

  lemma AppendRow(rows: seq<ActionRow>, r: ActionRow, kind: ActionType)
    ensures Stamps(rows + [r], kind)
         == Stamps(rows, kind) + (if r.kind == kind && r.result == Success then [r.When()] else [])
    ensures Completions(rows + [r]) == Completions(rows) + (if r.executedAt.Some? then [r.executedAt.value] else [])
  {
    assert (rows + [r])[..|rows|] == rows;
  }

  ghost predicate RowsUpTo(rows: seq<ActionRow>, hi: int) {
    forall i :: 0 <= i < |rows| ==> rows[i].When() <= hi
  }

  lemma {:induction false} StampsComeFromRows(rows: seq<ActionRow>, kind: ActionType, hi: int)
    requires RowsUpTo(rows, hi)
    ensures NoneAfter(Stamps(rows, kind), hi) && NoneAfter(Completions(rows), hi)
  {
    if rows != [] {
      StampsComeFromRows(rows[..|rows| - 1], kind, hi);
    }
  }

  /** A row a crash left behind: still pending, never executed, and old. */
  predicate Stale(r: ActionRow, olderThan: int) {
    r.result == Pending && r.executedAt.None? && r.scheduledAt <= olderThan
  }

  /** The rows left once the stale ones are deleted, in order. */
  function Reclaimed(rows: seq<ActionRow>, olderThan: int): (r: seq<ActionRow>)
    ensures forall row :: row in r <==> row in rows && !Stale(row, olderThan)
  {
    if rows == [] then []
    else
      var init, last := rows[..|rows| - 1], rows[|rows| - 1];
      assert rows == init + [last];
      Reclaimed(init, olderThan) + (if Stale(last, olderThan) then [] else [last])
  }

  /** Row by row, so the rest stays in order and as often as it is stored. */
  lemma ReclaimedNext(rows: seq<ActionRow>, row: ActionRow, olderThan: int)
    ensures Reclaimed([], olderThan) == []
    ensures Reclaimed(rows + [row], olderThan)
         == Reclaimed(rows, olderThan) + if row.result == Pending && row.executedAt.None? && row.scheduledAt <= olderThan then [] else [row]
  {
    assert (rows + [row])[..|rows|] == rows;
  }

  /** No limit is stated over a row that never ran, so deleting it changes none. */
  lemma {:induction false} ReclaimKeepsStamps(rows: seq<ActionRow>, olderThan: int, kind: ActionType)
    ensures Stamps(Reclaimed(rows, olderThan), kind) == Stamps(rows, kind)
    ensures Completions(Reclaimed(rows, olderThan)) == Completions(rows)
  {
    if rows != [] {
      var init, last := rows[..|rows| - 1], rows[|rows| - 1];
      ReclaimKeepsStamps(init, olderThan, kind);
      AppendRow(Reclaimed(init, olderThan), last, kind);
      assert Reclaimed(init, olderThan) + [] == Reclaimed(init, olderThan);
    }
  }

  lemma ReclaimedUpTo(rows: seq<ActionRow>, olderThan: int, hi: int)
    requires RowsUpTo(rows, hi)
    ensures RowsUpTo(Reclaimed(rows, olderThan), hi)
  {
    var r := Reclaimed(rows, olderThan);
    forall i | 0 <= i < |r| ensures r[i].When() <= hi {
      assert r[i] in rows;
    }
  }

  lemma ReclaimKeepsLast(rows: seq<ActionRow>, olderThan: int)
    requires rows != [] && !Stale(rows[|rows| - 1], olderThan)
    ensures var r := Reclaimed(rows, olderThan); r != [] && r[|r| - 1] == rows[|rows| - 1]
  {
  }

  /** The latest instant any row carries, pending rows included. */
  function LatestAction(rows: seq<ActionRow>): (r: Option<int>)
    ensures r.None? <==> rows == []
    ensures r.Some? ==> (exists i :: 0 <= i < |rows| && rows[i].When() == r.value) && RowsUpTo(rows, r.value)
  {
    if rows == [] then None
    else
      var rest := LatestAction(rows[..|rows| - 1]);
      var t := rows[|rows| - 1].When();
      if rest.None? then Some(t) else Some(Max(rest.value, t))
  }

  // ----- the same counts, as sets of rows

  /** A row of a type that succeeded in (lo, hi]: at its execution, or else when it was scheduled. */
  predicate DoneIn(r: ActionRow, kind: ActionType, lo: int, hi: int) {
    r.kind == kind && r.result == Success && lo < (if r.executedAt.Some? then r.executedAt.value else r.scheduledAt) <= hi
  }

  /** Those rows. */
  function Done(rows: seq<ActionRow>, kind: ActionType, lo: int, hi: int): set<nat> {
    set i: nat | i < |rows| && DoneIn(rows[i], kind, lo, hi)
  }

  /** The rows that finished in (lo, hi], whatever came of them. */
  function Finished(rows: seq<ActionRow>, lo: int, hi: int): set<nat> {
    set i: nat | i < |rows| && rows[i].executedAt.Some? && lo < rows[i].executedAt.value <= hi
  }

  lemma {:induction false} CountIsRows(rows: seq<ActionRow>, kind: ActionType, lo: int, hi: int)
    ensures CountIn(Stamps(rows, kind), lo, hi) == |Done(rows, kind, lo, hi)|
  {
    if rows == [] {
      assert Done(rows, kind, lo, hi) == {};
    } else {
      var n := |rows| - 1;
      CountIsRows(rows[..n], kind, lo, hi);
      DoneNext(rows, kind, lo, hi);
      AppendCounts(Stamps(rows[..n], kind), rows[n].When(), lo, hi);
      assert Stamps(rows[..n], kind) + [] == Stamps(rows[..n], kind);
    }
  }

  lemma DoneNext(rows: seq<ActionRow>, kind: ActionType, lo: int, hi: int)
    requires rows != []
    ensures var n := |rows| - 1;
            |Done(rows, kind, lo, hi)| == |Done(rows[..n], kind, lo, hi)| + if DoneIn(rows[n], kind, lo, hi) then 1 else 0
  {
    var n: nat := |rows| - 1;
    var before, after := Done(rows[..n], kind, lo, hi), Done(rows, kind, lo, hi);
    forall i: nat ensures i in after <==> i in before || (i == n && DoneIn(rows[n], kind, lo, hi)) {
      assert i < n ==> rows[..n][i] == rows[i];
    }
    if DoneIn(rows[n], kind, lo, hi) {
      assert after == before + {n};
    } else {
      assert after == before;
    }
  }

  lemma {:induction false} CountIsFinished(rows: seq<ActionRow>, lo: int, hi: int)
    ensures CountIn(Completions(rows), lo, hi) == |Finished(rows, lo, hi)|
  {
    if rows == [] {
      assert Finished(rows, lo, hi) == {};
    } else {
      var n := |rows| - 1;
      CountIsFinished(rows[..n], lo, hi);
      var here := if n in Finished(rows, lo, hi) then {n} else {};
      assert Finished(rows, lo, hi) == Finished(rows[..n], lo, hi) + here;
      if rows[n].executedAt.Some? {
        AppendCounts(Completions(rows[..n]), rows[n].executedAt.value, lo, hi);
      }
      assert Completions(rows[..n]) + [] == Completions(rows[..n]);
    }
  }

  /** Every later finished row comes after every earlier one in the list of completions. */
  lemma {:induction false} CompletionsHold(rows: seq<ActionRow>, i: nat)
    requires i < |rows| && rows[i].executedAt.Some?
    ensures var k := |Completions(rows[..i])|; k < |Completions(rows)| && Completions(rows)[k] == rows[i].executedAt.value
  {
    var n := |rows| - 1;
    if i < n {
      CompletionsHold(rows[..n], i);
      assert rows[..n][..i] == rows[..i];
    }
  }

  lemma {:induction false} CompletionsGrow(rows: seq<ActionRow>, i: nat, j: nat)
    requires i < j <= |rows| && rows[i].executedAt.Some?
    ensures |Completions(rows[..i])| < |Completions(rows[..j])|
  {
    assert rows[..j][..j - 1] == rows[..j - 1];
    if i < j - 1 {
      CompletionsGrow(rows, i, j - 1);
    }
  }
}
