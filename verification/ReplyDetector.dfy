/** The reply detector: a seen-set, per-thread watermarks, and the pass that reads
conversations oldest first and routes only the newest message.

The mailbox is modelled as what really happened in each thread; a list row and a
history read are views of it. */
module ReplyDetector {
  import opened Wrappers
  import opened Sorting

  type ThreadId = nat
  type Text = nat

  datatype Happening = Happening(at: int, inbound: bool, text: Text)

  /** What happened in each thread, oldest first. */
  type Mailbox = map<ThreadId, seq<Happening>>

  /** The identity a message is deduplicated by. */
  datatype Key = Key(thread: ThreadId, at: int, text: Text)

  datatype InboundMessage = InboundMessage(thread: ThreadId, at: int, text: Text) {
    function Id(): Key {
      Key(thread, at, text)
    }
  }

  /** A row of the mailbox list; None when it carries no usable timestamp. */
  datatype ThreadRow = ThreadRow(thread: ThreadId, lastActivityAt: Option<int>)

  type Marks = map<ThreadId, int>

  ghost predicate Increasing(s: seq<Happening>) {
    forall i, j :: 0 <= i < j < |s| ==> s[i].at < s[j].at
  }

  ghost predicate Orderly(box: Mailbox) {
    forall t :: t in box ==> Increasing(box[t])
  }

  /** Message h of thread t as the detector knows it. */
  function KeyOf(t: ThreadId, h: Happening): Key {
    Key(t, h.at, h.text)
  }

  /** Everything inbound in the thread up to an instant is in the seen-set. */
  ghost predicate Accounted(box: Mailbox, seen: set<Key>, t: ThreadId, upTo: int) {
    t in box ==> forall i :: 0 <= i < |box[t]| && box[t][i].inbound && box[t][i].at <= upTo ==> KeyOf(t, box[t][i]) in seen
  }

  /** The row names no instant past the thread's mark. */
  predicate IsUnchanged(row: ThreadRow, marks: Marks) {
    row.lastActivityAt.Some? && row.thread in marks && row.lastActivityAt.value <= marks[row.thread]
  }

  // ----- views of the mailbox

  /** The inbound messages of a thread, oldest first. */
  function InboundOf(t: ThreadId, s: seq<Happening>): seq<InboundMessage> {
    if s == [] then []
    else
      var last := s[|s| - 1];
      InboundOf(t, s[..|s| - 1]) + (if last.inbound then [InboundMessage(t, last.at, last.text)] else [])
  }

  lemma {:induction false} InboundIsListed(t: ThreadId, s: seq<Happening>, i: nat)
    requires i < |s| && s[i].inbound
    ensures exists k :: 0 <= k < |InboundOf(t, s)| && InboundOf(t, s)[k] == InboundMessage(t, s[i].at, s[i].text)
  {
    if i == |s| - 1 {
      assert InboundOf(t, s)[|InboundOf(t, s)| - 1] == InboundMessage(t, s[i].at, s[i].text);
    } else {
      InboundIsListed(t, s[..|s| - 1], i);
      var k :| 0 <= k < |InboundOf(t, s[..|s| - 1])| && InboundOf(t, s[..|s| - 1])[k] == InboundMessage(t, s[i].at, s[i].text);
      assert InboundOf(t, s)[k] == InboundOf(t, s[..|s| - 1])[k];
    }
  }

  /** A history read: the thread's inbound messages, in whatever order the mailbox returns them. */
  ghost predicate IsHistory(box: Mailbox, t: ThreadId, history: seq<InboundMessage>) {
    multiset(history) == multiset(if t in box then InboundOf(t, box[t]) else [])
  }

  /** A list row, fresh or cached: it names an instant not later than the last happening. */
  ghost predicate IsRowOf(box: Mailbox, row: ThreadRow) {
    row.lastActivityAt.Some? ==>
      row.thread in box && box[row.thread] != [] && row.lastActivityAt.value <= box[row.thread][|box[row.thread]| - 1].at
  }

  predicate Chronological(s: seq<InboundMessage>) {
    forall i, j :: 0 <= i < j < |s| ==> s[i].at <= s[j].at
  }

  /** The newest message ends up last; ties keep the order they were read in. */
  method OldestFirst(history: seq<InboundMessage>) returns (r: seq<InboundMessage>)
    ensures StablySorted(r, history)
  {
    r := StableSort(history, NotLater);
    assert forall i, j :: 0 <= i < j < |r| ==> NotLater(r[i], r[j]);
  }

  predicate NotLater(a: InboundMessage, b: InboundMessage) {
    a.at <= b.at
  }

  lemma {:induction false} InboundComesFrom(t: ThreadId, s: seq<Happening>, k: nat)
    requires k < |InboundOf(t, s)|
    ensures exists i :: 0 <= i < |s| && s[i].inbound && InboundOf(t, s)[k] == InboundMessage(t, s[i].at, s[i].text)
  {
    var n := |s| - 1;
    if k < |InboundOf(t, s[..n])| {
      InboundComesFrom(t, s[..n], k);
      var i :| 0 <= i < n && s[..n][i].inbound && InboundOf(t, s[..n])[k] == InboundMessage(t, s[..n][i].at, s[..n][i].text);
      assert s[i] == s[..n][i];
    } else {
      assert s[n].inbound;
    }
  }

  /** A history whose messages up to an instant are all seen accounts for the thread up to it,
      and one with an unseen message does not. */
  lemma HistoryAccounts(box: Mailbox, t: ThreadId, history: seq<InboundMessage>, seen: set<Key>, upTo: int)
    requires IsHistory(box, t, history)
    ensures Accounted(box, seen, t, upTo) <==> forall k :: 0 <= k < |history| && history[k].at <= upTo ==> history[k].Id() in seen
  {
    if t !in box {
      assert |multiset(history)| == |history|;
    } else if forall k :: 0 <= k < |history| && history[k].at <= upTo ==> history[k].Id() in seen {
      SeenHistoryAccounts(box, t, history, seen, upTo);
    } else {
      var k :| 0 <= k < |history| && history[k].at <= upTo && history[k].Id() !in seen;
      UnseenStandsOut(box, t, history, seen, upTo, k);
    }
  }

  lemma UnseenStandsOut(box: Mailbox, t: ThreadId, history: seq<InboundMessage>, seen: set<Key>, upTo: int, k: nat)
    requires t in box && IsHistory(box, t, history) && k < |history| && history[k].at <= upTo && history[k].Id() !in seen
    ensures !Accounted(box, seen, t, upTo)
  {
    var all := InboundOf(t, box[t]);
    SameMembers(history, all);
    assert history[k] in history;
    var j :| 0 <= j < |all| && all[j] == history[k];
    InboundComesFrom(t, box[t], j);
    var i :| 0 <= i < |box[t]| && box[t][i].inbound && all[j] == InboundMessage(t, box[t][i].at, box[t][i].text);
    assert KeyOf(t, box[t][i]) == history[k].Id();
  }

  lemma SeenHistoryAccounts(box: Mailbox, t: ThreadId, history: seq<InboundMessage>, seen: set<Key>, upTo: int)
    requires IsHistory(box, t, history)
    requires forall k :: 0 <= k < |history| && history[k].at <= upTo ==> history[k].Id() in seen
    ensures Accounted(box, seen, t, upTo)
  {
    if t in box {
      var all := InboundOf(t, box[t]);
      forall i | 0 <= i < |box[t]| && box[t][i].inbound && box[t][i].at <= upTo ensures KeyOf(t, box[t][i]) in seen {
        InboundIsListed(t, box[t], i);
        var k :| 0 <= k < |all| && all[k] == InboundMessage(t, box[t][i].at, box[t][i].text);
        assert all[k] in multiset(all);
        assert all[k] in multiset(history);
        assert all[k] in history;
      }
    }
  }

  // ----- the detector as a state machine

  /** What really happened, and what the detector knows and did about it. */
  datatype Watch = Watch(box: Mailbox, seen: set<Key>, marks: Marks, routed: seq<Key>)

  /** Any number of messages may arrive between two events; a thread read is one event. */
  datatype Event =
    | Grew(more: Mailbox)
    | ThreadRead(row: ThreadRow, history: seq<InboundMessage>, lead: InboundMessage -> bool, done: bool)
    | Noticed                         // snippets handled, or a probe answered

  /** Threads only get longer, event times strictly increasing. */
  ghost predicate Grows(box: Mailbox, more: Mailbox) {
    Orderly(more) && forall t :: t in box ==> t in more && box[t] <= more[t]
  }

  /** The seen-set grows, and what is routed was unseen before and is seen after. */
  ghost predicate Notices(s: Watch, t: Watch) {
    && s.seen <= t.seen && s.routed <= t.routed
    && (forall i :: |s.routed| <= i < |t.routed| ==> t.routed[i] !in s.seen && t.routed[i] in t.seen)
    && (forall i, j :: |s.routed| <= i < j < |t.routed| ==> t.routed[i] != t.routed[j])
  }

  /** The message a history read may route: the last listed of the latest ones. */
  function Newest(history: seq<InboundMessage>): InboundMessage
    requires history != []
  {
    var n := |history| - 1;
    if n == 0 then history[0]
    else if Newest(history[..n]).at <= history[n].at then history[n] else Newest(history[..n])
  }

  /** When it is routed: it is the lead's, unseen, and no twin of it was handled just before. */
  predicate Routes(history: seq<InboundMessage>, lead: InboundMessage -> bool, seen: set<Key>) {
    history != [] && lead(Newest(history)) && Newest(history).Id() !in seen && multiset(history)[Newest(history)] == 1
  }

  /** The keys of the lead's own messages. */
  function MatchedKeys(history: seq<InboundMessage>, lead: InboundMessage -> bool): set<Key> {
    set k | 0 <= k < |history| && lead(history[k]) :: history[k].Id()
  }

  /** A history was handled: to its end, or up to a message on which handling threw. */
  ghost predicate Reads(s: Watch, t: Watch, history: seq<InboundMessage>, lead: InboundMessage -> bool, done: bool) {
    var handed := if Routes(history, lead, s.seen) then [Newest(history).Id()] else [];
    && s.seen <= t.seen <= s.seen + MatchedKeys(history, lead)
    && (done ==> t.seen == s.seen + MatchedKeys(history, lead))
    && ((t.routed == s.routed + handed && forall key :: key in handed ==> key in t.seen)
        || (!done && t.routed == s.routed))
  }

  ghost predicate Step(s: Watch, e: Event, t: Watch) {
    match e
    case Grew(more) => Grows(s.box, more) && t == s.(box := more)
    case ThreadRead(row, history, lead, done) =>
      && IsRowOf(s.box, row) && IsHistory(s.box, row.thread, history)
      && t.box == s.box && Reads(s, t, history, lead, done)
      && t.marks == if done && row.lastActivityAt.Some? then s.marks[row.thread := row.lastActivityAt.value] else s.marks
    case Noticed => t.box == s.box && t.marks == s.marks && Notices(s, t)
  }

  /** A key names one message, so it is among the matched ones exactly when its message is. */
  lemma KeyInMatched(msg: InboundMessage, history: seq<InboundMessage>, lead: InboundMessage -> bool)
    ensures msg.Id() in MatchedKeys(history, lead) <==> lead(msg) && msg in history
  {
    if msg.Id() in MatchedKeys(history, lead) {
      var k :| 0 <= k < |history| && lead(history[k]) && history[k].Id() == msg.Id();
      assert history[k] == msg;
    }
  }

  lemma ReadsNotices(s: Watch, t: Watch, history: seq<InboundMessage>, lead: InboundMessage -> bool, done: bool)
    requires Reads(s, t, history, lead, done)
    ensures Notices(s, t)
  {
  }

  lemma StepNotices(s: Watch, e: Event, t: Watch)
    requires Step(s, e, t)
    ensures Notices(s, t)
  {
    if e.ThreadRead? {
      ReadsNotices(s, t, e.history, e.lead, e.done);
    }
  }

  /** states[i+1] follows states[i] by events[i]. */
  ghost predicate Path(states: seq<Watch>, events: seq<Event>) {
    |states| == |events| + 1 && forall i :: 0 <= i < |events| ==> Step(states[i], events[i], states[i + 1])
  }

  /** A path of a process that started with nothing seen. */
  ghost predicate Run(states: seq<Watch>, events: seq<Event>) {
    Path(states, events) && states[0].seen == {} && states[0].marks == map[] && states[0].routed == []
  }

  lemma PathExtend(states: seq<Watch>, events: seq<Event>, e: Event, t: Watch)
    requires Path(states, events) && Step(states[|states| - 1], e, t)
    ensures Path(states + [t], events + [e])
  {
  }

  /** Accounted for up to an instant already past: later messages cannot undo it. */
  ghost predicate Settled(box: Mailbox, seen: set<Key>, t: ThreadId, upTo: int) {
    t in box && box[t] != [] && upTo <= box[t][|box[t]| - 1].at && Accounted(box, seen, t, upTo)
  }

  lemma SettledStays(box: Mailbox, seen: set<Key>, more: Mailbox, wider: set<Key>, t: ThreadId, upTo: int)
    requires Settled(box, seen, t, upTo) && seen <= wider && (more == box || Grows(box, more))
    ensures Settled(more, wider, t, upTo)
  {
    var n := |box[t]|;
    if Grows(box, more) {
      assert Increasing(more[t]) && box[t] <= more[t];
      forall i | 0 <= i < |more[t]| && more[t][i].inbound && more[t][i].at <= upTo ensures KeyOf(t, more[t][i]) in wider {
        assert more[t][n - 1] == box[t][n - 1];
        assert i < n ==> more[t][i] == box[t][i];
      }
      assert more[t][n - 1].at <= more[t][|more[t]| - 1].at;
    }
  }

  /** Every mark is settled, and each key was routed at most once, after it was seen. */
  ghost predicate Good(s: Watch) {
    (forall t :: t in s.marks ==> Settled(s.box, s.seen, t, s.marks[t])) && RoutedOnce(s)
  }

  ghost predicate RoutedOnce(s: Watch) {
    && (forall i, j :: 0 <= i < j < |s.routed| ==> s.routed[i] != s.routed[j])
    && (forall i :: 0 <= i < |s.routed| ==> s.routed[i] in s.seen)
  }

  function Arrive(box: Mailbox, t: ThreadId, h: Happening): Mailbox {
    box[t := (if t in box then box[t] else []) + [h]]
  }

  /** Runs let threads grow in time order only. Of any other arrival: it leaves the marks good
      exactly when it is not before its thread's mark and, unless outbound or seen already, after it. */
  lemma ArrivalKeepsIff(s: Watch, t: ThreadId, h: Happening)
    requires Good(s)
    ensures Good(s.(box := Arrive(s.box, t, h)))
            <==> (t in s.marks ==>
                    s.marks[t] <= h.at && (h.inbound && KeyOf(t, h) !in s.seen ==> s.marks[t] < h.at))
  {
    var more := Arrive(s.box, t, h);
    var last := |more[t]| - 1;
    assert more[t][last] == h;
    if t in s.marks {
      assert Settled(s.box, s.seen, t, s.marks[t]);
    }
    forall u | u in s.marks && u != t ensures Settled(more, s.seen, u, s.marks[u]) {
      assert Settled(s.box, s.seen, u, s.marks[u]);
    }
    if t in s.marks && !(s.marks[t] <= h.at && (h.inbound && KeyOf(t, h) !in s.seen ==> s.marks[t] < h.at)) {
      assert !Settled(more, s.seen, t, s.marks[t]);
    }
  }

  /** Two messages in one millisecond, the thread read between them: the second is never read. */
  lemma TiedArrivalIsPassed()
    ensures var first, second := Happening(5, true, 9), Happening(5, true, 8);
            var s := Watch(map[0 := [first]], {KeyOf(0, first)}, map[0 := 5], [KeyOf(0, first)]);
            && Good(s) && !Good(s.(box := Arrive(s.box, 0, second)))
            && IsUnchanged(ThreadRow(0, Some(5)), s.marks) && KeyOf(0, second) !in s.seen
  {
    var first, second := Happening(5, true, 9), Happening(5, true, 8);
    var s := Watch(map[0 := [first]], {KeyOf(0, first)}, map[0 := 5], [KeyOf(0, first)]);
    assert Settled(s.box, s.seen, 0, 5);
    ArrivalKeepsIff(s, 0, second);
  }

  lemma StepSettles(s: Watch, e: Event, t: Watch, thread: ThreadId, upTo: int)
    requires Step(s, e, t) && Settled(s.box, s.seen, thread, upTo)
    ensures Settled(t.box, t.seen, thread, upTo)
  {
    StepNotices(s, e, t);
    SettledStays(s.box, s.seen, t.box, t.seen, thread, upTo);
  }

  /** A read that moves a mark meets no message of somebody other than its lead that nobody
      has seen and that is not later than the row. */
  ghost predicate Clean(s: Watch, e: Event) {
    e.ThreadRead? && e.done && e.row.lastActivityAt.Some? ==>
      forall k :: 0 <= k < |e.history| && e.history[k].at <= e.row.lastActivityAt.value ==>
        e.lead(e.history[k]) || e.history[k].Id() in s.seen
  }

  /** Every event keeps the marks good, thread reads exactly when they are clean. */
  lemma StepKeepsGoodIff(s: Watch, e: Event, t: Watch)
    requires Step(s, e, t) && Good(s)
    ensures Good(t) <==> Clean(s, e)
  {
    if e.ThreadRead? && e.done && e.row.lastActivityAt.Some? {
      HistoryAccounts(s.box, e.row.thread, e.history, t.seen, e.row.lastActivityAt.value);
      assert t.marks[e.row.thread] == e.row.lastActivityAt.value;
      forall k | 0 <= k < |e.history| ensures e.history[k].Id() in t.seen <==> e.history[k].Id() in s.seen || e.lead(e.history[k]) {
        KeyInMatched(e.history[k], e.history, e.lead);
      }
    }
    if Clean(s, e) {
      forall thread | thread in t.marks ensures Settled(t.box, t.seen, thread, t.marks[thread]) {
        if thread in s.marks && t.marks[thread] == s.marks[thread] {
          StepSettles(s, e, t, thread, s.marks[thread]);
        }
      }
      StepRoutesOnce(s, e, t);
    } else {
      assert !Settled(t.box, t.seen, e.row.thread, t.marks[e.row.thread]);
    }
  }

  /** A message the lead's identity did not match is passed by the mark: the thread is
      skipped from then on with that message unseen. */
  lemma UnmatchedMessageIsPassed()
    ensures var row := ThreadRow(0, Some(5));
            var s := Watch(map[0 := [Happening(5, true, 9)]], {}, map[], []);
            var t := s.(marks := map[0 := 5]);
            && Step(s, ThreadRead(row, [InboundMessage(0, 5, 9)], _ => false, true), t) && Good(s) && !Good(t)
            && IsUnchanged(row, t.marks) && !Accounted(t.box, t.seen, 0, 5)
  {
    var box := map[0 := [Happening(5, true, 9)]];
    var s := Watch(box, {}, map[], []);
    assert box[0][..0] == [];
    assert InboundOf(0, box[0]) == [InboundMessage(0, 5, 9)];
    assert KeyOf(0, box[0][0]) !in s.seen;
    var none: Marks := map[];
    assert none[0 := 5] == map[0 := 5];
    assert box[0][0].inbound && box[0][0].at <= 5;
    assert !Accounted(box, {}, 0, 5) && !Settled(box, {}, 0, 5);
    var t := s.(marks := map[0 := 5]);
    var row := ThreadRow(0, Some(5));
    var history := [InboundMessage(0, 5, 9)];
    assert Step(s, ThreadRead(row, history, _ => false, true), t);
    assert 0 in t.marks && !Settled(t.box, t.seen, 0, t.marks[0]);
  }

  lemma StepRoutesOnce(s: Watch, e: Event, t: Watch)
    requires Step(s, e, t) && RoutedOnce(s)
    ensures RoutedOnce(t)
  {
    StepNotices(s, e, t);
    forall i | 0 <= i < |s.routed| ensures t.routed[i] == s.routed[i] && t.routed[i] in s.seen {
      assert s.routed == t.routed[..|s.routed|];
    }
  }

  /** No message is handed to the router twice while the process lives, whatever the reads met. */
  lemma {:induction false} RoutedAtMostOnce(states: seq<Watch>, events: seq<Event>, n: nat)
    requires Run(states, events) && n < |states|
    ensures RoutedOnce(states[n])
  {
    if n > 0 {
      RoutedAtMostOnce(states, events, n - 1);
      assert Step(states[n - 1], events[n - 1], states[n - 1 + 1]);
      StepRoutesOnce(states[n - 1], events[n - 1], states[n]);
    }
  }

  /** Over any interleaving of arrivals, thread reads, snippet passes and probes: the marks
      are sound, no message is routed twice, and what is settled stays settled. */
  lemma {:induction false} RunKeeps(states: seq<Watch>, events: seq<Event>, a: nat, b: nat, t: ThreadId, upTo: int)
    requires Run(states, events) && a <= b < |states|
    requires forall i :: 0 <= i < b ==> Clean(states[i], events[i])
    ensures Good(states[b])
    ensures Settled(states[a].box, states[a].seen, t, upTo) ==> Settled(states[b].box, states[b].seen, t, upTo)
    ensures states[a].seen <= states[b].seen && states[a].routed <= states[b].routed
    decreases b
  {
    if b > 0 {
      var n := b - 1;
      assert Step(states[n], events[n], states[n + 1]);
      RunKeeps(states, events, if a < n then a else n, n, t, upTo);
      StepKeepsGoodIff(states[n], events[n], states[n + 1]);
      StepNotices(states[n], events[n], states[n + 1]);
      if a < b && Settled(states[n].box, states[n].seen, t, upTo) {
        StepSettles(states[n], events[n], states[n + 1], t, upTo);
      }
    }
  }

  /** Skipping a thread is safe for good: its row was judged against the marks of one state,
      and at every later one nothing inbound up to the row's instant is unseen, whatever arrived since. */
  lemma SkipStaysSafe(states: seq<Watch>, events: seq<Event>, a: nat, b: nat, row: ThreadRow)
    requires Run(states, events) && a <= b < |states| && IsUnchanged(row, states[a].marks)
    requires forall i :: 0 <= i < b ==> Clean(states[i], events[i])
    ensures Accounted(states[b].box, states[b].seen, row.thread, row.lastActivityAt.value)
  {
    var s := states[a];
    RunKeeps(states, events, a, a, row.thread, s.marks[row.thread]);
    RunKeeps(states, events, a, b, row.thread, s.marks[row.thread]);
    assert Settled(states[b].box, states[b].seen, row.thread, s.marks[row.thread]);
  }

  /** A thread read in full is accounted for from then on, up to the instant of its row. */
  lemma ReadStaysAccounted(states: seq<Watch>, events: seq<Event>, a: nat, b: nat)
    requires Run(states, events) && a < b < |states| && forall i :: 0 <= i < b ==> Clean(states[i], events[i])
    requires events[a].ThreadRead? && events[a].done && events[a].row.lastActivityAt.Some?
    ensures Accounted(states[b].box, states[b].seen, events[a].row.thread, events[a].row.lastActivityAt.value)
  {
    var t, at := events[a].row.thread, events[a].row.lastActivityAt.value;
    assert Step(states[a], events[a], states[a + 1]);
    RunKeeps(states, events, a + 1, b, t, at);
    assert t in states[a + 1].marks && states[a + 1].marks[t] == at;
    RunKeeps(states, events, a + 1, a + 1, t, at);
  }

  // ----- which replies get routed

  /** What was marked seen without being routed is never routed. */
  lemma {:induction false} SeenIsNeverRouted(states: seq<Watch>, events: seq<Event>, a: nat, b: nat, key: Key)
    requires Path(states, events) && a <= b < |states| && key in states[a].seen && key !in states[a].routed
    ensures key in states[b].seen && key !in states[b].routed
    decreases b
  {
    if a < b {
      var n := b - 1;
      SeenIsNeverRouted(states, events, a, n, key);
      assert Step(states[n], events[n], states[n + 1]);
      StepNotices(states[n], events[n], states[n + 1]);
    }
  }

  /** An unseen reply of the lead, in a history read in full: it is seen from then on, and it is
      routed exactly when it is the newest message of the whole history, without a twin. */
  lemma ReplyIsRoutedIff(s: Watch, e: Event, t: Watch, msg: InboundMessage)
    requires Step(s, e, t) && e.ThreadRead? && e.done
    requires msg in e.history && e.lead(msg) && msg.Id() !in s.seen && RoutedOnce(s)
    ensures msg.Id() in t.seen
    ensures msg.Id() in t.routed <==> msg == Newest(e.history) && multiset(e.history)[msg] == 1
  {
    KeyInMatched(msg, e.history, e.lead);
    if Routes(e.history, e.lead, s.seen) && msg.Id() == Newest(e.history).Id() {
      assert msg == Newest(e.history);
    }
  }

  /** A reply behind somebody else's newer message: marked seen, and routed neither by this
      read nor, since it is seen, by any later one. */
  lemma OlderReplyIsLost()
    ensures var mine, theirs := InboundMessage(0, 5, 9), InboundMessage(0, 6, 8);
            var s := Watch(map[0 := [Happening(5, true, 9), Happening(6, true, 8)]], {}, map[], []);
            var t := s.(seen := {mine.Id()}, marks := map[0 := 6]);
            && Step(s, ThreadRead(ThreadRow(0, Some(6)), [mine, theirs], (msg: InboundMessage) => msg.text == 9, true), t)
            && mine.Id() in t.seen && t.routed == []
  {
    var mine, theirs := InboundMessage(0, 5, 9), InboundMessage(0, 6, 8);
    var box := map[0 := [Happening(5, true, 9), Happening(6, true, 8)]];
    var history := [mine, theirs];
    var lead := (msg: InboundMessage) => msg.text == 9;
    assert box[0][..1] == [Happening(5, true, 9)] && box[0][..1][..0] == [];
    assert InboundOf(0, box[0][..1]) == [mine];
    assert InboundOf(0, box[0]) == history;
    assert history[..1] == [mine] && Newest(history) == theirs;
    assert MatchedKeys(history, lead) == {mine.Id()} by {
      KeyInMatched(mine, history, lead);
    }
    var none: Marks := map[];
    assert none[0 := 6] == map[0 := 6];
  }

  lemma {:induction false} SeenGrows(states: seq<Watch>, events: seq<Event>, a: nat, b: nat)
    requires Path(states, events) && a <= b < |states|
    ensures states[a].seen <= states[b].seen
    decreases b
  {
    if a < b {
      SeenGrows(states, events, a, b - 1);
      assert Step(states[b - 1], events[b - 1], states[b - 1 + 1]);
      StepNotices(states[b - 1], events[b - 1], states[b]);
    }
  }

  /** Two leads share a thread. Once the newest message was read for one of them, reading the
      thread for the other routes nothing, until a newer message arrives. */
  lemma SharedThreadRoutesOnce(states: seq<Watch>, events: seq<Event>, a: nat, b: nat)
    requires Path(states, events) && a < b < |events| && events[a].ThreadRead? && events[b].ThreadRead?
    requires events[a].done && events[a].history != [] && events[b].history != []
    requires Newest(events[b].history) == Newest(events[a].history) && events[a].lead(Newest(events[a].history))
    ensures states[b + 1].routed == states[b].routed
  {
    var newest := Newest(events[a].history);
    assert Step(states[a], events[a], states[a + 1]) && Step(states[b], events[b], states[b + 1]);
    NewestIsListed(events[a].history);
    KeyInMatched(newest, events[a].history, events[a].lead);
    SeenGrows(states, events, a + 1, b);
  }

  // ----- the newest message of a history

  lemma {:induction false} NewestIsListed(history: seq<InboundMessage>)
    requires history != []
    ensures Newest(history) in history && forall k :: 0 <= k < |history| ==> history[k].at <= Newest(history).at
  {
    var n := |history| - 1;
    if n > 0 {
      NewestIsListed(history[..n]);
      forall k | 0 <= k < |history| ensures history[k].at <= Newest(history).at {
        assert k < n ==> history[..n][k] == history[k];
      }
    }
  }

  /** Among the messages of its instant the newest is listed last. */
  lemma {:induction false} NewestIsLastPeer(history: seq<InboundMessage>, x: InboundMessage)
    requires history != [] && x.at == Newest(history).at
    ensures var peers := Peers(history, NotLater, x); peers != [] && peers[|peers| - 1] == Newest(history)
  {
    var n := |history| - 1;
    if n > 0 && history[n].at < Newest(history[..n]).at {
      NewestIsLastPeer(history[..n], x);
      assert Peers(history, NotLater, x) == Peers(history[..n], NotLater, x);
    }
  }

  lemma LastIsItsPeer(ordered: seq<InboundMessage>)
    requires ordered != []
    ensures var last := ordered[|ordered| - 1];
            var peers := Peers(ordered, NotLater, last); peers != [] && peers[|peers| - 1] == last
  {
  }

  lemma SameLatest(ordered: seq<InboundMessage>, history: seq<InboundMessage>)
    requires history != [] && Chronological(ordered) && multiset(ordered) == multiset(history)
    ensures ordered != [] && ordered[|ordered| - 1].at == Newest(history).at
  {
    SameMembers(ordered, history);
    NewestIsListed(history);
    var last := ordered[|ordered| - 1];
    assert last in history && Newest(history) in ordered;
  }

  /** A stable sort. */
  ghost predicate StablySorted(ordered: seq<InboundMessage>, history: seq<InboundMessage>) {
    && Chronological(ordered) && multiset(ordered) == multiset(history)
    && forall msg :: Peers(ordered, NotLater, msg) == Peers(history, NotLater, msg)
  }

  /** It puts the newest message at the end. */
  lemma NewestIsLast(ordered: seq<InboundMessage>, history: seq<InboundMessage>)
    requires history != [] && StablySorted(ordered, history)
    ensures ordered != [] && ordered[|ordered| - 1] == Newest(history)
  {
    SameLatest(ordered, history);
    var last := ordered[|ordered| - 1];
    assert Peers(ordered, NotLater, last) == Peers(history, NotLater, last);
    LastIsItsPeer(ordered);
    NewestIsLastPeer(history, last);
  }

  lemma LastIsSoleIff(ordered: seq<InboundMessage>)
    requires ordered != []
    ensures var n := |ordered| - 1; multiset(ordered)[ordered[n]] == 1 <==> ordered[n] !in ordered[..n]
  {
    var n := |ordered| - 1;
    assert ordered == ordered[..n] + [ordered[n]];
    assert ordered[n] in ordered[..n] <==> ordered[n] in multiset(ordered[..n]);
  }

  // ----- a history handled in order

  /** The last message is the lead's, unseen, and not listed before. */
  predicate RoutesLast(ordered: seq<InboundMessage>, lead: InboundMessage -> bool, seen: set<Key>) {
    ordered != [] && var n := |ordered| - 1;
                     lead(ordered[n]) && ordered[n].Id() !in seen && ordered[n] !in ordered[..n]
  }

  /** Handling this message throws: it is the lead's, unseen, and transcript, classifier or router fails on it. */
  predicate Fails(msg: InboundMessage, o: Outside, seen: set<Key>) {
    o.matches(msg) && msg.Id() !in seen && o.throws(msg.Id())
  }

  /** The first `reached` messages were handled: all of them, or up to the first that failed. */
  ghost predicate Handled(ordered: seq<InboundMessage>, o: Outside, seen: set<Key>, more: set<Key>,
                          routed: seq<Key>, longer: seq<Key>, reached: nat, finished: bool) {
    && reached <= |ordered|
    && more == seen + MatchedKeys(ordered[..reached], o.matches)
    && (finished <==> forall k :: 0 <= k < |ordered| ==> !Fails(ordered[k], o, seen))
    && (finished ==> reached == |ordered|)
    && (!finished ==> reached > 0 && Fails(ordered[reached - 1], o, seen))
    && longer == routed + if reached == |ordered| && RoutesLast(ordered, o.matches, seen) then [ordered[reached - 1].Id()] else []
  }

  lemma MatchedMore(ordered: seq<InboundMessage>, lead: InboundMessage -> bool, i: nat)
    requires i < |ordered|
    ensures MatchedKeys(ordered[..i + 1], lead)
         == MatchedKeys(ordered[..i], lead) + if lead(ordered[i]) then {ordered[i].Id()} else {}
  {
    var init, longer := ordered[..i], ordered[..i + 1];
    assert longer == init + [ordered[i]];
    forall key ensures key in MatchedKeys(longer, lead) <==> key in MatchedKeys(init, lead) || (lead(ordered[i]) && key == ordered[i].Id()) {
      var msg := InboundMessage(key.thread, key.at, key.text);
      assert msg.Id() == key;
      KeyInMatched(msg, longer, lead);
      KeyInMatched(msg, init, lead);
    }
  }

  lemma RoutesAlike(ordered: seq<InboundMessage>, history: seq<InboundMessage>, lead: InboundMessage -> bool, seen: set<Key>)
    requires StablySorted(ordered, history)
    ensures Routes(history, lead, seen) <==> RoutesLast(ordered, lead, seen)
    ensures Routes(history, lead, seen) ==> ordered[|ordered| - 1] == Newest(history) && Newest(history).Id() in MatchedKeys(history, lead)
  {
    SameMembers(ordered, history);
    if history != [] {
      NewestIsLast(ordered, history);
      LastIsSoleIff(ordered);
      NewestIsListed(history);
      KeyInMatched(Newest(history), history, lead);
    }
  }

  /** Handling the sorted history is a read of the history. */
  lemma HandledHistory(ordered: seq<InboundMessage>, history: seq<InboundMessage>, o: Outside, s: Watch, t: Watch, reached: nat, finished: bool)
    requires StablySorted(ordered, history)
    requires Handled(ordered, o, s.seen, t.seen, s.routed, t.routed, reached, finished)
    ensures Reads(s, t, history, o.matches, finished)
    ensures finished <==> forall k :: 0 <= k < |history| ==> !Fails(history[k], o, s.seen)
  {
    RoutesAlike(ordered, history, o.matches, s.seen);
    HandledKeys(ordered, history, o, s.seen, t.seen, s.routed, t.routed, reached, finished);
    SameMembers(ordered, history);
    SameFailures(ordered, history, o, s.seen);
  }

  lemma HandledKeys(ordered: seq<InboundMessage>, history: seq<InboundMessage>, o: Outside, seen: set<Key>, more: set<Key>,
                    routed: seq<Key>, longer: seq<Key>, reached: nat, finished: bool)
    requires StablySorted(ordered, history) && Handled(ordered, o, seen, more, routed, longer, reached, finished)
    ensures seen <= more <= seen + MatchedKeys(history, o.matches)
    ensures reached == |ordered| ==> more == seen + MatchedKeys(history, o.matches)
  {
    SameMembers(ordered, history);
    SameMatched(ordered, history, o.matches);
    assert ordered[..|ordered|] == ordered;
    PrefixMatched(ordered, o.matches, reached);
  }

  lemma SameFailures(ordered: seq<InboundMessage>, history: seq<InboundMessage>, o: Outside, seen: set<Key>)
    requires forall msg :: msg in ordered <==> msg in history
    ensures (forall k :: 0 <= k < |ordered| ==> !Fails(ordered[k], o, seen)) <==> (forall k :: 0 <= k < |history| ==> !Fails(history[k], o, seen))
  {
    forall k | 0 <= k < |ordered| ensures exists j :: 0 <= j < |history| && history[j] == ordered[k] {
      assert ordered[k] in history;
    }
    forall k | 0 <= k < |history| ensures exists j :: 0 <= j < |ordered| && ordered[j] == history[k] {
      assert history[k] in ordered;
    }
  }

  lemma SameMatched(ordered: seq<InboundMessage>, history: seq<InboundMessage>, lead: InboundMessage -> bool)
    requires forall msg :: msg in ordered <==> msg in history
    ensures MatchedKeys(ordered, lead) == MatchedKeys(history, lead)
  {
    forall key ensures key in MatchedKeys(ordered, lead) <==> key in MatchedKeys(history, lead) {
      var msg := InboundMessage(key.thread, key.at, key.text);
      assert msg.Id() == key;
      KeyInMatched(msg, ordered, lead);
      KeyInMatched(msg, history, lead);
    }
  }

  lemma PrefixMatched(ordered: seq<InboundMessage>, lead: InboundMessage -> bool, n: nat)
    requires n <= |ordered|
    ensures MatchedKeys(ordered[..n], lead) <= MatchedKeys(ordered, lead)
  {
    assert forall k :: 0 <= k < n ==> ordered[..n][k] == ordered[k];
  }

  // ----- the detector

  datatype Outcome = Unmatched | AlreadySeen | Recorded | RoutedNow | Threw

  /** Everything a call takes from outside: whom a message matches, and whether handling it throws. */
  datatype Outside = Outside(matches: InboundMessage -> bool, throws: Key -> bool)

  class Detector {
    var seen: set<Key>
    var marks: Marks
    /** Every message handed to the classifier and router, in order. */
    var routed: seq<Key>

    /** The detector and the mailbox it watches, as a value. */
    ghost function View(box: Mailbox): Watch
      reads this
    {
      Watch(box, seen, marks, routed)
    }

    constructor (ghost box: Mailbox)
      ensures View(box) == Watch(box, {}, map[], [])
    {
      seen, marks, routed := {}, map[], [];
    }

    /** One message: dropped if nobody's or seen, otherwise noted as seen, and routed if asked
        to. What throws has been noted already, so it does not come back. */
    method Handle(msg: InboundMessage, route: bool, o: Outside) returns (r: Outcome)
      modifies `seen, `routed
      ensures seen == if o.matches(msg) then old(seen) + {msg.Id()} else old(seen)
      ensures routed == if o.matches(msg) && msg.Id() !in old(seen) && route then old(routed) + [msg.Id()] else old(routed)
      ensures r.Threw? <==> o.matches(msg) && msg.Id() !in old(seen) && o.throws(msg.Id())
      ensures r.RoutedNow? <==> o.matches(msg) && msg.Id() !in old(seen) && route && !o.throws(msg.Id())
    {
      if !o.matches(msg) {
        return Unmatched;
      }
      var key := msg.Id();
      if key in seen {
        return AlreadySeen;
      }
      seen := seen + {key};
      if route {
        routed := routed + [key];
      }
      if o.throws(key) {
        return Threw;
      }
      return if route then RoutedNow else Recorded;
    }

    /** Read one changed thread in full, oldest first, and route its newest message if
        nobody has. The mark is set only once everything was handled. */
    method ReadThread(row: ThreadRow, history: seq<InboundMessage>, o: Outside, ghost box: Mailbox) returns (done: bool)
      requires IsHistory(box, row.thread, history) && IsRowOf(box, row)
      modifies this
      ensures Step(old(View(box)), ThreadRead(row, history, o.matches, done), View(box))
      ensures done <==> forall k :: 0 <= k < |history| ==> !Fails(history[k], o, old(seen))
    {
      ghost var before := View(box);
      var ordered := OldestFirst(history);
      ghost var reached: nat;
      done, reached := HandleAll(ordered, o);
      if done && row.lastActivityAt.Some? {
        marks := marks[row.thread := row.lastActivityAt.value];
      }
      HandledHistory(ordered, history, o, before, View(box), reached, done);
    }

    /** Handle a history in order; only its last entry may route. */
    method HandleAll(ordered: seq<InboundMessage>, o: Outside) returns (finished: bool, ghost reached: nat)
      modifies `seen, `routed
      ensures Handled(ordered, o, old(seen), seen, old(routed), routed, reached, finished)
    {
      var i := 0;
      while i < |ordered|
        invariant 0 <= i <= |ordered|
        invariant seen == old(seen) + MatchedKeys(ordered[..i], o.matches)
        invariant forall k :: 0 <= k < i ==> !Fails(ordered[k], o, old(seen))
        invariant routed == old(routed) + if i == |ordered| && RoutesLast(ordered, o.matches, old(seen)) then [ordered[i - 1].Id()] else []
      {
        ghost var before := seen;
        KeyInMatched(ordered[i], ordered[..i], o.matches);
        MatchedMore(ordered, o.matches, i);
        var r := Handle(ordered[i], i == |ordered| - 1, o);
        if r.Threw? {
          return false, i + 1;
        }
        StillFine(ordered, o, old(seen), i);
        i := i + 1;
      }
      assert ordered[..i] == ordered;
      return true, i;
    }

    /** One row of a pass: skipped when the marks the pass began with cover it, else read. */
    method ReadRow(row: ThreadRow, history: seq<InboundMessage>, atStart: Marks, o: Outside,
                   ghost box: Mailbox, ghost states: seq<Watch>, ghost events: seq<Event>, ghost rows: seq<ThreadRow>, ghost k: nat)
        returns (done: bool, ghost states': seq<Watch>, ghost events': seq<Event>)
      requires k < |rows| && rows[k] == row && PassSoFar(states, events, View(box), atStart, rows, k)
      requires ReadsDue(events, rows, atStart, k)
      requires IsHistory(box, row.thread, history)
      modifies this
      ensures PassSoFar(states', events', View(box), atStart, rows, if done then k + 1 else k) && states'[0] == states[0]
      ensures ReadsDue(events', rows, atStart, k + 1)
    {
      ghost var before := View(box);
      done, states', events' := true, states, events;
      if IsUnchanged(row, atStart) {
        PassSkips(states, events, before, atStart, rows, k);
        ReadsNext(events, rows, atStart, k, Noticed);
      } else {
        done := ReadThread(row, history, o, box);
        ghost var e := ThreadRead(row, history, o.matches, done);
        PassReads(states, events, before, e, View(box), atStart, rows, k);
        ReadsNext(events, rows, atStart, k, e);
        states', events' := states + [View(box)], events + [e];
      }
    }

    /** One account's history pass: rows mapped to enrolled leads, judged against the marks
        as they stood when the pass began. The list is read while the mailbox is
        boxes(0), the history of row k once it has grown to boxes(k), and matched against
        that row's own lead. */
    method ReadThreads(rows: seq<ThreadRow>, histories: nat -> seq<InboundMessage>, outsides: nat -> Outside, ghost boxes: nat -> Mailbox)
        returns (finished: bool, ghost reached: nat, ghost states: seq<Watch>, ghost events: seq<Event>)
      requires Good(View(boxes(0))) && forall k :: 0 <= k < |rows| ==> IsRowOf(boxes(0), rows[k])
      requires forall k: nat :: k < |rows| ==> Grows(boxes(k), boxes(k + 1)) && IsHistory(boxes(k), rows[k].thread, histories(k))
      modifies this
      ensures reached <= |rows| && (finished ==> reached == |rows|)
      ensures PassSoFar(states, events, View(boxes(reached)), old(marks), rows, reached) && states[0] == old(View(boxes(0)))
      ensures ReadsDue(events, rows, old(marks), if finished then |rows| else reached + 1)
    {
      var atStart := marks;
      reached, states, events := 0, [View(boxes(0))], [];
      var k := 0;
      while k < |rows|
        invariant 0 <= k == reached <= |rows|
        invariant PassSoFar(states, events, View(boxes(k)), atStart, rows, k) && states[0] == old(View(boxes(0)))
        invariant ReadsDue(events, rows, atStart, k)
      {
        var done;
        done, states, events := ReadRow(rows[k], histories(k), atStart, outsides(k), boxes(k), states, events, rows, k);
        if !done {
          return false, reached, states, events;
        }
        PassGrows(states, events, View(boxes(k)), boxes(k + 1), atStart, rows, k + 1);
        GrowthReadsNothing(events, rows, atStart, k + 1, boxes(k + 1));
        states, events := states + [View(boxes(k + 1))], events + [Grew(boxes(k + 1))];
        k, reached := k + 1, k + 1;
      }
      finished := true;
    }

    /** The list-snippet safety net: every new snippet is routed, each key once. */
    method ReadSnippets(snippets: seq<InboundMessage>, o: Outside, ghost box: Mailbox) returns (finished: bool)
      modifies `seen, `routed
      ensures Step(old(View(box)), Noticed, View(box)) && RoutesAllNew(old(View(box)), View(box))
      ensures seen <= old(seen) + MatchedKeys(snippets, o.matches)
      ensures finished ==> seen == old(seen) + MatchedKeys(snippets, o.matches)
      ensures finished <==> forall k :: 0 <= k < |snippets| ==> !Fails(snippets[k], o, old(seen))
    {
      finished := RouteEach(snippets, o, box);
    }

    /** Handle messages one after the other, each allowed to route. */
    method RouteEach(msgs: seq<InboundMessage>, o: Outside, ghost box: Mailbox) returns (finished: bool)
      modifies `seen, `routed
      ensures marks == old(marks) && Notices(old(View(box)), View(box)) && RoutesAllNew(old(View(box)), View(box))
      ensures seen <= old(seen) + MatchedKeys(msgs, o.matches)
      ensures finished ==> seen == old(seen) + MatchedKeys(msgs, o.matches)
      ensures finished <==> forall k :: 0 <= k < |msgs| ==> !Fails(msgs[k], o, old(seen))
    {
      ghost var start := View(box);
      var i := 0;
      while i < |msgs|
        invariant 0 <= i <= |msgs| && RoutedUpTo(start, View(box), msgs, o, i)
        invariant forall k :: 0 <= k < i ==> !Fails(msgs[k], o, start.seen)
      {
        ghost var before := View(box);
        var r := Handle(msgs[i], true, o);
        RoutedNext(start, before, View(box), msgs, o, i);
        if r.Threw? {
          PrefixMatched(msgs, o.matches, i + 1);
          return false;
        }
        StillFine(msgs, o, start.seen, i);
        i := i + 1;
      }
      assert msgs[..i] == msgs;
      return true;
    }

    /** The send-time probe over list snippets, for a lead with no mapped thread. */
    method ProbeSnippets(snippets: seq<InboundMessage>, since: Option<int>, o: Outside, ghost box: Mailbox) returns (replied: Option<bool>)
      modifies `seen, `routed
      ensures Step(old(View(box)), Noticed, View(box)) && RoutesAllNew(old(View(box)), View(box))
      ensures replied.Some? ==> (replied.value <==> exists k :: 0 <= k < |snippets| && o.matches(snippets[k])
                                                                && (since.None? || since.value < snippets[k].at))
      ensures replied.Some? ==> seen == old(seen) + MatchedKeys(snippets, msg => Counts(msg, since, o))
      ensures replied.None? <==> exists k :: 0 <= k < |snippets| && Counts(snippets[k], since, o) && Fails(snippets[k], o, old(seen))
    {
      var counting := Outside(msg => Counts(msg, since, o), o.throws);
      var found := false;
      for i := 0 to |snippets|
        invariant found <==> exists k :: 0 <= k < i && Counts(snippets[k], since, o)
      {
        found := found || Counts(snippets[i], since, o);
      }
      var finished := RouteEach(snippets, counting, box);
      return if finished then Some(found) else None;
    }

    /** The send-time probe of a mapped lead: any inbound at all means a reply, and only
        the newest is routed, if unseen. No mark is written. */
    method ProbeThread(history: seq<InboundMessage>, throws: Key -> bool, ghost box: Mailbox) returns (replied: Option<bool>)
      modifies `seen, `routed
      ensures Step(old(View(box)), Noticed, View(box))
      ensures Reads(old(View(box)), View(box), history, _ => true, replied.Some?)
      ensures replied.Some? ==> (replied.value <==> history != [])
      ensures replied.None? <==> exists k :: 0 <= k < |history| && history[k].Id() !in old(seen) && throws(history[k].Id())
    {
      ghost var before := View(box);
      var everybody := Outside(_ => true, throws);
      if |history| == 0 {
        assert MatchedKeys(history, everybody.matches) == {};
        return Some(false);
      }
      var ordered := OldestFirst(history);
      var finished, reached := HandleAll(ordered, everybody);
      HandledHistory(ordered, history, everybody, before, View(box), reached, finished);
      ReadsNotices(before, View(box), history, everybody.matches, finished);
      if !finished {
        return None;
      }
      return Some(true);
    }
  }

  /** Everything newly seen was routed, and nothing else. */
  ghost predicate RoutesAllNew(s: Watch, t: Watch) {
    |s.routed| <= |t.routed| && forall key :: key in t.routed[|s.routed|..] <==> key in t.seen && key !in s.seen
  }

  /** The first i messages were handled, each allowed to route. */
  ghost predicate RoutedUpTo(s: Watch, t: Watch, msgs: seq<InboundMessage>, o: Outside, i: nat)
    requires i <= |msgs|
  {
    && t.marks == s.marks && Notices(s, t) && RoutesAllNew(s, t)
    && t.seen == s.seen + MatchedKeys(msgs[..i], o.matches)
  }

  lemma RoutedNext(s: Watch, u: Watch, t: Watch, msgs: seq<InboundMessage>, o: Outside, i: nat)
    requires i < |msgs| && RoutedUpTo(s, u, msgs, o, i) && t.box == u.box && t.marks == u.marks
    requires t.seen == if o.matches(msgs[i]) then u.seen + {msgs[i].Id()} else u.seen
    requires t.routed == if o.matches(msgs[i]) && msgs[i].Id() !in u.seen then u.routed + [msgs[i].Id()] else u.routed
    ensures RoutedUpTo(s, t, msgs, o, i + 1)
  {
    MatchedMore(msgs, o.matches, i);
    OneMoreRouted(s, u, t, msgs[i].Id());
  }

  lemma OneMoreRouted(s: Watch, u: Watch, t: Watch, key: Key)
    requires Notices(s, u) && RoutesAllNew(s, u)
    requires (t.seen == u.seen && t.routed == u.routed)
             || (key !in u.seen && t.seen == u.seen + {key} && t.routed == u.routed + [key])
    ensures Notices(s, t) && RoutesAllNew(s, t)
  {
    var n := |s.routed|;
    if t.routed != u.routed {
      assert t.routed[n..] == u.routed[n..] + [key];
      forall i | n <= i < |u.routed| ensures t.routed[i] == u.routed[i] && u.routed[i] != key {
      }
    }
  }

  lemma StillFine(msgs: seq<InboundMessage>, o: Outside, seen: set<Key>, i: nat)
    requires i < |msgs| && forall k :: 0 <= k < i ==> !Fails(msgs[k], o, seen)
    requires !Fails(msgs[i], o, seen + MatchedKeys(msgs[..i], o.matches))
    ensures forall k :: 0 <= k < i + 1 ==> !Fails(msgs[k], o, seen)
  {
    KeyInMatched(msgs[i], msgs[..i], o.matches);
    if msgs[i] in msgs[..i] {
      var j :| 0 <= j < i && msgs[..i][j] == msgs[i];
      assert !Fails(msgs[j], o, seen);
    }
  }

  /** Nothing inbound up to the row's instant is unseen, now or later. */
  ghost predicate AccountedUpToRow(box: Mailbox, seen: set<Key>, row: ThreadRow) {
    row.lastActivityAt.Some? ==> Settled(box, seen, row.thread, row.lastActivityAt.value)
  }

  ghost predicate MarksSettled(box: Mailbox, seen: set<Key>, marks: Marks) {
    forall t :: t in marks ==> Settled(box, seen, t, marks[t])
  }

  /** A pass that has dealt with k rows: its events so far, only rows the marks did not cover
      read, and every row dealt with accounted for. */
  ghost predicate PassSoFar(states: seq<Watch>, events: seq<Event>, s: Watch, atStart: Marks, rows: seq<ThreadRow>, k: nat)
    requires k <= |rows|
  {
    && Path(states, events) && states[|states| - 1] == s
    && (forall i :: 0 <= i < |events| ==> OnlyReads(events[i], atStart))
    && (forall j :: 0 <= j < |rows| ==> IsRowOf(s.box, rows[j]))
    && MarksSettled(s.box, s.seen, atStart)
    && (AllClean(states, events) ==> Good(s) && forall j :: 0 <= j < k ==> AccountedUpToRow(s.box, s.seen, rows[j]))
  }

  ghost predicate AllClean(states: seq<Watch>, events: seq<Event>)
    requires |states| == |events| + 1
  {
    forall i :: 0 <= i < |events| ==> Clean(states[i], events[i])
  }

  lemma CleanBefore(states: seq<Watch>, events: seq<Event>, e: Event, t: Watch)
    requires |states| == |events| + 1 && AllClean(states + [t], events + [e])
    ensures AllClean(states, events) && Clean(states[|states| - 1], e)
  {
    forall i | 0 <= i < |events| ensures Clean(states[i], events[i]) {
      assert Clean((states + [t])[i], (events + [e])[i]);
    }
    assert Clean((states + [t])[|events|], (events + [e])[|events|]);
  }

  predicate OnlyReads(e: Event, atStart: Marks) {
    e.Grew? || (e.ThreadRead? && MustRead(e.row, atStart))
  }

  // ----- which threads a pass reads

  /** A row has to be read when it names no instant, its thread has no mark, or the instant is past the mark. */
  predicate MustRead(row: ThreadRow, marks: Marks) {
    row.lastActivityAt.None? || row.thread !in marks || marks[row.thread] < row.lastActivityAt.value
  }

  function ToRead(rows: seq<ThreadRow>, marks: Marks): seq<ThreadRow> {
    if rows == [] then []
    else ToRead(rows[..|rows| - 1], marks) + if MustRead(rows[|rows| - 1], marks) then [rows[|rows| - 1]] else []
  }

  /** The rows read so far, in order. */
  function RowsRead(events: seq<Event>): seq<ThreadRow> {
    if events == [] then []
    else RowsRead(events[..|events| - 1]) + if events[|events| - 1].ThreadRead? then [events[|events| - 1].row] else []
  }

  /** Of the first n rows exactly those that had to be read were, each once, in order. */
  ghost predicate ReadsDue(events: seq<Event>, rows: seq<ThreadRow>, atStart: Marks, n: nat) {
    n <= |rows| && RowsRead(events) == ToRead(rows[..n], atStart)
  }

  lemma ReadsNext(events: seq<Event>, rows: seq<ThreadRow>, atStart: Marks, n: nat, e: Event)
    requires ReadsDue(events, rows, atStart, n) && n < |rows|
    ensures !MustRead(rows[n], atStart) ==> ReadsDue(events, rows, atStart, n + 1)
    ensures MustRead(rows[n], atStart) && e.ThreadRead? && e.row == rows[n] ==> ReadsDue(events + [e], rows, atStart, n + 1)
  {
    assert rows[..n + 1][..n] == rows[..n];
    assert (events + [e])[..|events|] == events;
    assert RowsRead(events) + [] == RowsRead(events);
  }

  lemma GrowthReadsNothing(events: seq<Event>, rows: seq<ThreadRow>, atStart: Marks, n: nat, more: Mailbox)
    requires ReadsDue(events, rows, atStart, n)
    ensures ReadsDue(events + [Grew(more)], rows, atStart, n)
  {
    assert (events + [Grew(more)])[..|events|] == events;
    assert RowsRead(events) + [] == RowsRead(events);
  }

  /** What a read leaves on its thread's mark: a full read of a dated row its instant; nothing else moves a mark. */
  lemma MarksMoveByReads(s: Watch, e: Event, t: Watch, thread: ThreadId)
    requires Step(s, e, t)
    ensures var moves := e.ThreadRead? && e.done && e.row.lastActivityAt.Some? && e.row.thread == thread;
            && (thread in t.marks <==> thread in s.marks || moves)
            && (thread in t.marks ==> t.marks[thread] == if moves then e.row.lastActivityAt.value else s.marks[thread])
  {
  }

  /** Once a thread was read in full, later passes read it again exactly for news: for a row
      that names a later instant, or none. */
  lemma {:induction false} RereadOnlyForNews(states: seq<Watch>, events: seq<Event>, a: nat, b: nat, row: ThreadRow)
    requires Path(states, events) && a < b < |states|
    requires events[a].ThreadRead? && events[a].done && events[a].row.lastActivityAt.Some? && events[a].row.thread == row.thread
    requires forall i :: a < i < b && events[i].ThreadRead? ==> events[i].row.thread != row.thread
    ensures row.thread in states[b].marks && states[b].marks[row.thread] == events[a].row.lastActivityAt.value
    ensures MustRead(row, states[b].marks)
            <==> row.lastActivityAt.None? || events[a].row.lastActivityAt.value < row.lastActivityAt.value
    decreases b
  {
    var n := b - 1;
    assert Step(states[n], events[n], states[n + 1]);
    MarksMoveByReads(states[n], events[n], states[b], row.thread);
    if a < n {
      RereadOnlyForNews(states, events, a, n, row);
    }
  }

  lemma PassGrows(states: seq<Watch>, events: seq<Event>, s: Watch, more: Mailbox, atStart: Marks, rows: seq<ThreadRow>, k: nat)
    requires k <= |rows| && PassSoFar(states, events, s, atStart, rows, k) && Grows(s.box, more)
    ensures PassSoFar(states + [s.(box := more)], events + [Grew(more)], s.(box := more), atStart, rows, k)
  {
    PathExtend(states, events, Grew(more), s.(box := more));
    MailboxGrew(s, more, atStart, rows);
    if AllClean(states + [s.(box := more)], events + [Grew(more)]) {
      CleanBefore(states, events, Grew(more), s.(box := more));
      StepKeepsGoodIff(s, Grew(more), s.(box := more));
      RowsStayAccounted(s, Grew(more), s.(box := more), rows, k);
    }
  }

  /** A row the marks the pass began with cover needs no reading. */
  lemma PassSkips(states: seq<Watch>, events: seq<Event>, s: Watch, atStart: Marks, rows: seq<ThreadRow>, k: nat)
    requires k < |rows| && PassSoFar(states, events, s, atStart, rows, k) && IsUnchanged(rows[k], atStart)
    ensures PassSoFar(states, events, s, atStart, rows, k + 1)
  {
    assert Settled(s.box, s.seen, rows[k].thread, atStart[rows[k].thread]);
  }

  /** A row that was read is accounted for if its read finished; the others stay so. */
  lemma PassReads(states: seq<Watch>, events: seq<Event>, s: Watch, e: Event, t: Watch, atStart: Marks, rows: seq<ThreadRow>, k: nat)
    requires k < |rows| && PassSoFar(states, events, s, atStart, rows, k) && !IsUnchanged(rows[k], atStart)
    requires Step(s, e, t) && e.ThreadRead? && e.row == rows[k]
    ensures PassSoFar(states + [t], events + [e], t, atStart, rows, if e.done then k + 1 else k)
  {
    PathExtend(states, events, e, t);
    forall thread | thread in atStart ensures Settled(t.box, t.seen, thread, atStart[thread]) {
      SettledStays(s.box, s.seen, t.box, t.seen, thread, atStart[thread]);
    }
    if AllClean(states + [t], events + [e]) {
      CleanBefore(states, events, e, t);
      StepKeepsGoodIff(s, e, t);
      RowsStayAccounted(s, e, t, rows, k);
      if e.done && rows[k].lastActivityAt.Some? {
        assert t.marks[rows[k].thread] == rows[k].lastActivityAt.value;
      }
    }
  }

  lemma RowsStayAccounted(s: Watch, e: Event, t: Watch, rows: seq<ThreadRow>, k: nat)
    requires Step(s, e, t) && k <= |rows| && forall j :: 0 <= j < k ==> AccountedUpToRow(s.box, s.seen, rows[j])
    ensures forall j :: 0 <= j < k ==> AccountedUpToRow(t.box, t.seen, rows[j])
  {
    forall j | 0 <= j < k && rows[j].lastActivityAt.Some? ensures AccountedUpToRow(t.box, t.seen, rows[j]) {
      assert AccountedUpToRow(s.box, s.seen, rows[j]);
      StepSettles(s, e, t, rows[j].thread, rows[j].lastActivityAt.value);
    }
  }

  /** Messages arriving between two reads undo nothing. */
  lemma MailboxGrew(s: Watch, more: Mailbox, atStart: Marks, rows: seq<ThreadRow>)
    requires Grows(s.box, more) && MarksSettled(s.box, s.seen, atStart)
    requires forall j :: 0 <= j < |rows| ==> IsRowOf(s.box, rows[j])
    ensures MarksSettled(more, s.seen, atStart)
    ensures forall j :: 0 <= j < |rows| ==> IsRowOf(more, rows[j])
  {
    forall thread | thread in atStart ensures Settled(more, s.seen, thread, atStart[thread]) {
      SettledStays(s.box, s.seen, more, s.seen, thread, atStart[thread]);
    }
    forall j | 0 <= j < |rows| ensures IsRowOf(more, rows[j]) {
      assert IsRowOf(s.box, rows[j]);
      RowStays(s.box, more, rows[j]);
    }
  }

  lemma RowStays(box: Mailbox, more: Mailbox, row: ThreadRow)
    requires IsRowOf(box, row) && Grows(box, more)
    ensures IsRowOf(more, row)
  {
    if row.lastActivityAt.Some? {
      var t, n := row.thread, |box[row.thread]|;
      assert Increasing(more[t]) && box[t] <= more[t];
      assert more[t][n - 1] == box[t][n - 1];
      assert more[t][n - 1].at <= more[t][|more[t]| - 1].at;
    }
  }

  /** Where the list-snippet probe looks: snippets of this lead, newer than the last step. */
  predicate Counts(msg: InboundMessage, since: Option<int>, o: Outside) {
    o.matches(msg) && (since.None? || msg.at > since.value)
  }
}
