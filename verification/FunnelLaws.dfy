/** What every write to the funnel keeps.

`Inv` ties the cursor, stage, message and log tables together; `Forward` says in
which direction a write may move them. Each primitive combination of writes is
shown to keep the first and obey the second; the writers themselves are then
chains of these (see FunnelRuns). */
module FunnelLaws {
  import opened Actions
  import opened FunnelWorld

  // ----- direction

  function Remaining(plan: Plan, c: Cursor): nat {
    var n := |plan.Steps(c.campaign)|;
    if c.step < n then n - c.step else 0
  }

  /** How many more changes of (state, step) a cursor can see. */
  function Potential(plan: Plan, c: Cursor): nat {
    var r := Remaining(plan, c);
    if !Active(c.state) then 0
    else if r == 0 then 1
    else if Ready(c.state) then 3 * r + 1
    else if c.state == AwaitingApproval then 3 * r
    else 3 * r - 1
  }

  predicate SamePlace(c: Cursor, d: Cursor) {
    c.state == d.state && c.step == d.step
  }

  predicate CursorForward(plan: Plan, c: Cursor, d: Cursor) {
    && d.campaign == c.campaign && d.account == c.account
    && c.step <= d.step
    && (c.step == d.step && !Ready(c.state) ==> !Ready(d.state))
    && (!Active(c.state) ==> d == c)
    && (SamePlace(c, d) || Potential(plan, d) < Potential(plan, c))
  }

  predicate StatusForward(a: MessageStatus, b: MessageStatus) {
    a == b || (a == Draft && b in {Approved, Rejected, Cancelled}) || (a == Approved && b in {Sent, Cancelled})
    || (a == Draft && b == Sent)
  }

  predicate MessageForward(a: Message, b: Message) {
    && b == a.(body := b.body, status := b.status)
    && StatusForward(a.status, b.status)
    && (a.status != Draft ==> b.body == a.body)
  }

  ghost predicate CursorsForward(plan: Plan, w: World, v: World) {
    && (forall t :: t in w.cursors ==> t in v.cursors && CursorForward(plan, w.cursors[t], v.cursors[t]))
    && (forall t :: t in v.cursors && t !in w.cursors && t in w.targets ==> !w.targets[t].removed)
  }

  ghost predicate MessagesForward(w: World, v: World) {
    |w.messages| <= |v.messages| && forall m :: 0 <= m < |w.messages| ==> MessageForward(w.messages[m], v.messages[m])
  }

  ghost predicate TargetsForward(w: World, v: World) {
    forall t :: t in w.targets ==>
      t in v.targets && v.targets[t].campaign == w.targets[t].campaign && v.targets[t].person == w.targets[t].person
      && (w.targets[t].removed ==> v.targets[t].removed)
  }

  ghost predicate Forward(plan: Plan, w: World, v: World) {
    && w.clock <= v.clock
    && w.log <= v.log
    && CursorsForward(plan, w, v)
    && MessagesForward(w, v)
    && TargetsForward(w, v)
  }

  lemma ForwardTransitive(plan: Plan, u: World, v: World, w: World)
    requires Forward(plan, u, v) && Forward(plan, v, w)
    ensures Forward(plan, u, w)
  {
    assert u.log <= w.log;
  }

  // ----- what the log promises

  predicate Consent(d: ApprovalDecision) {
    d != Reject
  }

  /** The operator let this body go out. */
  ghost predicate SignedBefore(log: seq<Entry>, i: nat, m: MessageId, body: Body) {
    exists j :: 0 <= j < i && j < |log| && log[j].Decided? && log[j].msg == m && Consent(log[j].decision) && log[j].body == body
  }

  ghost predicate AcceptedBefore(log: seq<Entry>, i: nat, t: TargetId) {
    exists j :: 0 <= j < i && j < |log| && log[j] == Accepted(t)
  }

  /** The lead replied, or was removed. */
  predicate Ends(e: Entry, t: TargetId) {
    e == Routed(t) || e == Removed(t)
  }

  ghost predicate EndedBefore(log: seq<Entry>, i: nat, t: TargetId) {
    exists j :: 0 <= j < i && j < |log| && Ends(log[j], t)
  }

  /** Outreach: a draft of a sequence step, or an executor call other than a withdrawal. */
  predicate Outreach(e: Entry) {
    e.Drafted? || (e.Drove? && e.kind != ActionType.WithdrawInvite)
  }

  function TargetOf(e: Entry): TargetId
    requires e.Drafted? || e.Drove?
  {
    e.target
  }

  /** A step index handled by the sequence itself: drafted, or driven directly. */
  predicate Handles(e: Entry) {
    e.Drafted? || (e.Drove? && e.via.Direct?)
  }

  function HandledStep(e: Entry): nat
    requires Handles(e)
  {
    if e.Drafted? then e.step else e.via.step
  }

  /** The cursor is done with a step index. */
  predicate Past(c: Cursor, k: nat) {
    k < c.step || (k == c.step && !Ready(c.state))
  }

  /** An executor call the human gate allows: a level that permits it, or a signed row with its signed body. */
  ghost predicate Gated(w: World, i: nat)
    requires i < |w.log| && w.log[i].Drove?
  {
    var e := w.log[i];
    match e.via
    case Direct(level, _) => MayExecuteDirectly(level, e.kind)
    case Operator(level) => MayExecuteDirectly(level, e.kind) && e.kind == ActionType.WithdrawInvite
    case ByApproval(m, body) =>
      && m < |w.messages|
      && w.messages[m].target == e.target && w.messages[m].kind == e.kind && w.messages[m].account == e.account
      && w.messages[m].createdAt <= e.at
      && SignedBefore(w.log, i, m, body)
      && w.messages[m].status != Draft
      && (e.result == Success ==> w.messages[m].status == Sent)
  }

  /** Facts about outreach to one lead: never after it ended, a message only after
      acceptance (unless the lead was connected to begin with), each step at most once. */
  ghost predicate Timely(warm: set<TargetId>, w: World, i: nat)
    requires i < |w.log| && Outreach(w.log[i])
  {
    var e := w.log[i];
    && !EndedBefore(w.log, i, TargetOf(e))
    && (e.kind == ActionType.Message ==> TargetOf(e) in warm || AcceptedBefore(w.log, i, TargetOf(e)))
  }

  ghost predicate EntryOk(warm: set<TargetId>, w: World, i: nat)
    requires i < |w.log|
  {
    var e := w.log[i];
    && (Outreach(e) ==> Timely(warm, w, i))
    && (Handles(e) ==> TargetOf(e) in w.cursors && Past(w.cursors[TargetOf(e)], HandledStep(e)))
    && (e.Drove? ==> e.at <= w.clock && Gated(w, i))
    && (e.Drafted? ==> e.msg < |w.messages| && w.messages[e.msg].target == e.target && w.messages[e.msg].kind == e.kind)
    && (e.Decided? ==> e.msg < |w.messages| && w.messages[e.msg].status != Draft
                       && if Consent(e.decision) then w.messages[e.msg].body == e.body && w.messages[e.msg].status != Rejected
                          else w.messages[e.msg].status == Rejected)
    && (e.Accepted? ==> e.target in w.cursors)
    && (e.Routed? ==> e.target in w.cursors && !Active(w.cursors[e.target].state))
    && (e.Removed? ==> e.target in w.targets && w.targets[e.target].removed
                       && (e.target in w.cursors ==> !Active(w.cursors[e.target].state)))
    && (e.Abandoned? ==> e.msg < |w.messages| && w.messages[e.msg].status == Cancelled
                         && w.messages[e.msg].target == e.target && w.messages[e.msg].account == e.account
                         && w.messages[e.msg].kind == e.kind)
  }

  predicate DeliversOnce(e: Entry, f: Entry) {
    !(e.Drove? && f.Drove? && e.via.ByApproval? && f.via.ByApproval? && e.via.msg == f.via.msg
      && e.result == Success && f.result == Success)
  }

  /** No two entries handle the same step, decide the same draft, deliver the same row, or share a draft. */
  predicate Distinct(e: Entry, f: Entry) {
    && (Handles(e) && Handles(f) && TargetOf(e) == TargetOf(f) ==> HandledStep(e) != HandledStep(f))
    && (e.Decided? && f.Decided? ==> e.msg != f.msg)
    && (e.Drafted? && f.Drafted? ==> e.msg != f.msg)
    && DeliversOnce(e, f)
  }

  ghost predicate LogOk(warm: set<TargetId>, w: World) {
    && (forall i :: 0 <= i < |w.log| ==> EntryOk(warm, w, i))
    && (forall i, j :: 0 <= i < j < |w.log| ==> Distinct(w.log[i], w.log[j]))
  }

  // ----- the tables

  ghost predicate WellFormed(w: World) {
    && (forall t :: t in w.cursors ==> t in w.targets && w.cursors[t].campaign == w.targets[t].campaign)
    && (forall m :: 0 <= m < |w.messages| ==> w.messages[m].target in w.cursors && w.messages[m].createdAt <= w.clock)
  }

  predicate AsksFor(plan: Plan, c: Cursor, kind: ActionType) {
    c.step < |plan.Steps(c.campaign)| && plan.Steps(c.campaign)[c.step].kind == Act(kind)
  }

  /** A live draft belongs to a cursor parked for exactly that draft. */
  ghost predicate LiveIsParked(plan: Plan, w: World, m: MessageId)
    requires m < |w.messages|
  {
    var msg := w.messages[m];
    && msg.target in w.cursors
    && w.cursors[msg.target].state == AwaitingApproval
    && w.cursors[msg.target].account == msg.account
    && AsksFor(plan, w.cursors[msg.target], msg.kind)
    && (msg.kind == ActionType.Message ==> msg.target in w.targets && w.targets[msg.target].stage == Connected)
    && Drafted(msg.target, w.cursors[msg.target].step, msg.kind, m) in w.log
  }

  ghost predicate DraftsParked(plan: Plan, w: World) {
    && (forall m :: 0 <= m < |w.messages| && Live(w.messages[m].status) ==> LiveIsParked(plan, w, m))
    && (forall m, n :: 0 <= m < n < |w.messages| && Live(w.messages[m].status) && Live(w.messages[n].status) ==>
          w.messages[m].target != w.messages[n].target)
  }

  ghost predicate ApprovedIsSigned(w: World) {
    forall m :: 0 <= m < |w.messages| && w.messages[m].status == Approved ==>
      SignedBefore(w.log, |w.log|, m, w.messages[m].body)
  }

  /** Every lead awaiting acceptance is at stage 'invited'. */
  ghost predicate ParkedIsInvited(w: World) {
    forall t :: t in w.cursors && w.cursors[t].state == AwaitingConnection ==> t in w.targets && w.targets[t].stage == Invited
  }

  /** Stage 'connected' is earned by an acceptance, or was there to begin with. */
  ghost predicate ConnectedIsEarned(warm: set<TargetId>, w: World) {
    forall t :: t in w.targets && w.targets[t].stage == Connected ==> t in warm || AcceptedBefore(w.log, |w.log|, t)
  }

  ghost predicate Inv(plan: Plan, warm: set<TargetId>, w: World) {
    && WellFormed(w)
    && DraftsParked(plan, w)
    && ApprovedIsSigned(w)
    && ParkedIsInvited(w)
    && ConnectedIsEarned(warm, w)
    && LogOk(warm, w)
  }

  /** A world with no history. */
  ghost predicate Fresh(warm: set<TargetId>, w: World) {
    && WellFormed(w) && ParkedIsInvited(w) && w.log == [] && w.messages == []
    && (forall t :: t in w.targets && w.targets[t].stage == Connected ==> t in warm)
  }

  lemma FreshIsInv(plan: Plan, warm: set<TargetId>, w: World)
    requires Fresh(warm, w)
    ensures Inv(plan, warm, w)
  {
  }

  // ----- old entries stay good as the world moves forward

  lemma EntryKept(plan: Plan, warm: set<TargetId>, w: World, v: World, i: nat)
    requires Forward(plan, w, v) && i < |w.log| && EntryOk(warm, w, i)
    ensures EntryOk(warm, v, i)
  {
    var e := w.log[i];
    assert v.log[i] == e;
    if Outreach(e) {
      assert forall j :: 0 <= j < i ==> v.log[j] == w.log[j];
      if AcceptedBefore(w.log, i, TargetOf(e)) {
        var j :| 0 <= j < i && w.log[j] == Accepted(TargetOf(e));
        assert v.log[j] == Accepted(TargetOf(e));
      }
    }
    if e.Drove? && e.via.ByApproval? {
      var j :| 0 <= j < i && w.log[j].Decided? && w.log[j].msg == e.via.msg && Consent(w.log[j].decision) && w.log[j].body == e.via.body;
      assert v.log[j] == w.log[j];
    }
  }

  /** A write that adds nothing to the log keeps the log's promises. */
  lemma LogKept(plan: Plan, warm: set<TargetId>, w: World, v: World)
    requires Forward(plan, w, v) && LogOk(warm, w) && v.log == w.log
    ensures LogOk(warm, v)
  {
    forall i | 0 <= i < |v.log| ensures EntryOk(warm, v, i) {
      EntryKept(plan, warm, w, v, i);
    }
  }

  /** A write that adds one entry keeps them if the new entry is good and differs from the old ones. */
  lemma LogExtended(plan: Plan, warm: set<TargetId>, w: World, v: World, e: Entry)
    requires Forward(plan, w, v) && LogOk(warm, w) && v.log == w.log + [e]
    requires EntryOk(warm, v, |w.log|)
    requires forall i :: 0 <= i < |w.log| ==> Distinct(w.log[i], e)
    ensures LogOk(warm, v)
  {
    forall i | 0 <= i < |v.log| ensures EntryOk(warm, v, i) {
      if i < |w.log| {
        EntryKept(plan, warm, w, v, i);
      }
    }
  }

  lemma SignedKept(log: seq<Entry>, e: Entry, m: MessageId, body: Body)
    requires SignedBefore(log, |log|, m, body)
    ensures SignedBefore(log + [e], |log| + 1, m, body) && SignedBefore(log + [e], |log|, m, body)
  {
    var j :| 0 <= j < |log| && log[j].Decided? && log[j].msg == m && Consent(log[j].decision) && log[j].body == body;
    assert (log + [e])[j] == log[j];
  }

  lemma AcceptedKept(log: seq<Entry>, e: Entry, t: TargetId)
    requires AcceptedBefore(log, |log|, t)
    ensures AcceptedBefore(log + [e], |log| + 1, t) && AcceptedBefore(log + [e], |log|, t)
  {
    var j :| 0 <= j < |log| && log[j] == Accepted(t);
    assert (log + [e])[j] == log[j];
  }

  // ----- writes about one lead

  /** Nothing but lead t's rows moved, and those moved forward. */
  ghost predicate OnlyLead(plan: Plan, w: World, v: World, t: TargetId) {
    && v.clock == w.clock
    && v.cursors.Keys == w.cursors.Keys && v.targets.Keys == w.targets.Keys
    && (forall u :: u in w.cursors && u != t ==> v.cursors[u] == w.cursors[u])
    && (forall u :: u in w.targets && u != t ==> v.targets[u] == w.targets[u])
    && (t in w.cursors ==> CursorForward(plan, w.cursors[t], v.cursors[t]))
    && (t in w.targets ==> v.targets[t].campaign == w.targets[t].campaign && v.targets[t].person == w.targets[t].person
                           && (w.targets[t].removed ==> v.targets[t].removed))
    && |w.messages| <= |v.messages|
    && (forall m :: 0 <= m < |w.messages| ==>
          MessageForward(w.messages[m], v.messages[m]) && (w.messages[m].target != t ==> v.messages[m] == w.messages[m]))
    && (forall m :: |w.messages| <= m < |v.messages| ==> v.messages[m].target == t && v.messages[m].createdAt <= v.clock)
  }

  /** What lead t's rows owe the invariant after the write. */
  ghost predicate LeadOk(plan: Plan, warm: set<TargetId>, v: World, t: TargetId) {
    && t in v.cursors
    && (forall m :: 0 <= m < |v.messages| && v.messages[m].target == t && Live(v.messages[m].status) ==> LiveIsParked(plan, v, m))
    && (forall m, n :: 0 <= m < n < |v.messages| && v.messages[m].target == t && v.messages[n].target == t ==>
          !(Live(v.messages[m].status) && Live(v.messages[n].status)))
    && (forall m :: 0 <= m < |v.messages| && v.messages[m].target == t && v.messages[m].status == Approved ==>
          SignedBefore(v.log, |v.log|, m, v.messages[m].body))
    && (v.cursors[t].state == AwaitingConnection ==> t in v.targets && v.targets[t].stage == Invited)
    && (t in v.targets && v.targets[t].stage == Connected ==> t in warm || AcceptedBefore(v.log, |v.log|, t))
  }

  lemma OnlyLeadIsForward(plan: Plan, w: World, v: World, t: TargetId)
    requires OnlyLead(plan, w, v, t) && w.log <= v.log
    ensures Forward(plan, w, v)
  {
  }

  lemma DraftsStayParked(plan: Plan, warm: set<TargetId>, w: World, v: World, t: TargetId)
    requires DraftsParked(plan, w) && OnlyLead(plan, w, v, t) && w.log <= v.log && LeadOk(plan, warm, v, t)
    ensures DraftsParked(plan, v)
  {
    forall m | 0 <= m < |v.messages| && Live(v.messages[m].status) ensures LiveIsParked(plan, v, m) {
      if v.messages[m].target != t {
        assert v.messages[m] == w.messages[m];
        assert LiveIsParked(plan, w, m);
        var u := w.messages[m].target;
        var i :| 0 <= i < |w.log| && w.log[i] == Drafted(u, w.cursors[u].step, w.messages[m].kind, m);
        assert v.log[i] == w.log[i];
      }
    }
    forall m, n | 0 <= m < n < |v.messages| && Live(v.messages[m].status) && Live(v.messages[n].status)
      ensures v.messages[m].target != v.messages[n].target
    {
      if v.messages[m].target != t && v.messages[n].target != t {
        assert v.messages[m] == w.messages[m] && v.messages[n] == w.messages[n];
      }
    }
  }

  lemma OthersStaySigned(plan: Plan, warm: set<TargetId>, w: World, v: World, t: TargetId)
    requires ApprovedIsSigned(w) && ConnectedIsEarned(warm, w) && ParkedIsInvited(w)
    requires OnlyLead(plan, w, v, t) && w.log <= v.log && LeadOk(plan, warm, v, t)
    ensures ApprovedIsSigned(v) && ConnectedIsEarned(warm, v) && ParkedIsInvited(v)
  {
    forall m | 0 <= m < |v.messages| && v.messages[m].status == Approved
      ensures SignedBefore(v.log, |v.log|, m, v.messages[m].body)
    {
      if v.messages[m].target != t {
        assert v.messages[m] == w.messages[m];
        var j :| 0 <= j < |w.log| && w.log[j].Decided? && w.log[j].msg == m && Consent(w.log[j].decision)
                 && w.log[j].body == w.messages[m].body;
        assert v.log[j] == w.log[j];
      }
    }
    forall u | u in v.targets && v.targets[u].stage == Connected
      ensures u in warm || AcceptedBefore(v.log, |v.log|, u)
    {
      if u != t && u !in warm {
        var j :| 0 <= j < |w.log| && w.log[j] == Accepted(u);
        assert v.log[j] == Accepted(u);
      }
    }
  }

  /** A write about one lead that leaves the log alone. */
  lemma QuietWrite(plan: Plan, warm: set<TargetId>, w: World, v: World, t: TargetId)
    requires Inv(plan, warm, w) && OnlyLead(plan, w, v, t) && v.log == w.log && LeadOk(plan, warm, v, t)
    ensures Inv(plan, warm, v) && Forward(plan, w, v)
  {
    OnlyLeadIsForward(plan, w, v, t);
    DraftsStayParked(plan, warm, w, v, t);
    OthersStaySigned(plan, warm, w, v, t);
    LogKept(plan, warm, w, v);
  }

  /** A write about one lead that logs one entry. */
  lemma LoggedWrite(plan: Plan, warm: set<TargetId>, w: World, v: World, t: TargetId, e: Entry)
    requires Inv(plan, warm, w) && OnlyLead(plan, w, v, t) && v.log == w.log + [e] && LeadOk(plan, warm, v, t)
    requires EntryOk(warm, v, |w.log|)
    requires forall i :: 0 <= i < |w.log| ==> Distinct(w.log[i], e)
    ensures Inv(plan, warm, v) && Forward(plan, w, v)
  {
    OnlyLeadIsForward(plan, w, v, t);
    DraftsStayParked(plan, warm, w, v, t);
    OthersStaySigned(plan, warm, w, v, t);
    LogExtended(plan, warm, w, v, e);
  }
}
