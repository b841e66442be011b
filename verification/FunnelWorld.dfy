/** The outreach funnel as a value: the stored tables, the live outstanding-invite
counter and the audit log, with every writer as a function from world to world.

The imperative writers (see DispatchTicks, FunnelStores and FunnelServices) are proved equal to these functions; the
laws over whole runs (see FunnelLaws and FunnelRuns) are proved about them. */
module FunnelWorld {
  import opened Wrappers
  import opened Actions
  import opened WorkingSchedule

  type TargetId = nat
  type CampaignId = nat
  type MessageId = nat
  type Person = nat
  type Body = nat

  datatype AutonomyLevel = Supervised | SemiAuto | Autonomous

  datatype Stage = Sourced | Queued | Invited | Connected | InConversation | Replied | Won | Lost

  datatype ProgressState =
    | NotStarted | InProgress | Completed | Failed | Skipped | Replied
    | AwaitingApproval | AwaitingConnection | Withdrawn | AlreadyInvited

  datatype MessageStatus = Draft | Approved | Rejected | Cancelled | Sent

  datatype ApprovalDecision = Approve | Edit | Reject

  datatype Intent = Interested | Question | Referral | Objection | NotNow | OutOfOffice | NotInterested | Stop

  /** A sequence step: an action, or a pure wait. */
  datatype StepKind = Act(action: ActionType) | Delay
  datatype StepDef = StepDef(kind: StepKind, delaySeconds: int)

  /** What is fixed during a run: each campaign's enabled steps, and the pile ceiling. */
  datatype Plan = Plan(steps: map<CampaignId, seq<StepDef>>, outstandingCeiling: nat) {
    function Steps(c: CampaignId): seq<StepDef> {
      if c in steps then steps[c] else []
    }
  }

  datatype Cursor = Cursor(
    campaign: CampaignId, account: AccountId, state: ProgressState, step: nat,
    nextAt: Option<int>, lastAt: Option<int>)

  datatype Target = Target(campaign: CampaignId, person: Person, stage: Stage, removed: bool)

  /** An outbound message bound to the request it will dispatch. */
  datatype Message = Message(
    target: TargetId, account: AccountId, kind: ActionType, body: Body, status: MessageStatus, createdAt: int)

  /** What put an action on the page. */
  datatype Via =
    | Direct(level: AutonomyLevel, step: nat)        // a sequence step the level let through
    | ByApproval(msg: MessageId, body: Body)         // an approved row, and the body it carried
    | Operator(level: AutonomyLevel)                 // a gated withdrawal asked for directly

  /** The audit log. `Drove` entries are the action rows. */
  datatype Entry =
    | Drove(at: int, target: TargetId, account: AccountId, kind: ActionType, result: ActionResult, via: Via)
    | Drafted(target: TargetId, step: nat, kind: ActionType, msg: MessageId)
    | Decided(msg: MessageId, decision: ApprovalDecision, body: Body)
    | Accepted(target: TargetId)
    | Routed(target: TargetId)
    | Removed(target: TargetId)
    | Abandoned(at: int, msg: MessageId, target: TargetId, account: AccountId, kind: ActionType)

  /** The stored tables. One cursor per target: enrollment is keyed by target. */
  datatype World = World(
    clock: int,
    levels: map<CampaignId, AutonomyLevel>,
    targets: map<TargetId, Target>,
    cursors: map<TargetId, Cursor>,
    messages: seq<Message>,
    suppressed: set<Person>,
    outstanding: map<AccountId, nat>,
    log: seq<Entry>)

  // ----- vocabulary

  predicate Active(s: ProgressState) {
    s in {NotStarted, InProgress, AwaitingApproval, AwaitingConnection}
  }

  /** Not yet handled at its step. */
  predicate Ready(s: ProgressState) {
    s in {NotStarted, InProgress}
  }

  predicate Contacted(s: Stage) {
    s in {Invited, Connected, InConversation, Stage.Replied, Won}
  }

  /** Stages that end a sequence: somebody answers by hand from here on, or nobody does. */
  predicate StopStage(s: Stage) {
    s in {InConversation, Stage.Replied, Won, Lost}
  }

  predicate Live(s: MessageStatus) {
    s in {Draft, Approved}
  }

  /** Whether a level lets this type of action out without an approval. */
  predicate MayExecuteDirectly(level: AutonomyLevel, kind: ActionType) {
    match level
    case Supervised => false
    case SemiAuto => kind != ActionType.Message
    case Autonomous => true
  }

  /** A campaign always has a row; the fallback is never reached. */
  function LevelOf(w: World, c: CampaignId): AutonomyLevel {
    if c in w.levels then w.levels[c] else Supervised
  }

  function OutstandingOf(w: World, a: AccountId): nat {
    if a in w.outstanding then w.outstanding[a] else 0
  }

  predicate IsSuppressed(w: World, t: TargetId) {
    t in w.targets && w.targets[t].person in w.suppressed
  }

  // ----- primitive writes

  function SetCursor(w: World, t: TargetId, c: Cursor): World {
    w.(cursors := w.cursors[t := c])
  }

  function SetStage(w: World, t: TargetId, s: Stage): World {
    if t in w.targets then w.(targets := w.targets[t := w.targets[t].(stage := s)]) else w
  }

  function SetStatus(w: World, m: MessageId, s: MessageStatus): World
    requires m < |w.messages|
  {
    w.(messages := w.messages[m := w.messages[m].(status := s)])
  }

  function Note(w: World, e: Entry): World {
    w.(log := w.log + [e])
  }

  function At(w: World, now: int): World {
    w.(clock := now)
  }

  function CancelFor(messages: seq<Message>, t: TargetId): (r: seq<Message>)
    ensures |r| == |messages|
    ensures forall i :: 0 <= i < |r| ==>
              r[i] == if messages[i].target == t && Live(messages[i].status)
                      then messages[i].(status := Cancelled) else messages[i]
  {
    seq(|messages|, i requires 0 <= i < |messages| =>
      if messages[i].target == t && Live(messages[i].status) then messages[i].(status := Cancelled) else messages[i])
  }

  /** Take a lead out: an active cursor ends in the given state, unsent rows are cancelled. */
  function StopFunnel(w: World, t: TargetId, terminal: ProgressState): World {
    w.(cursors := if t in w.cursors && Active(w.cursors[t].state)
                  then w.cursors[t := w.cursors[t].(state := terminal, nextAt := None)] else w.cursors,
       messages := CancelFor(w.messages, t))
  }

  function AddOutstanding(w: World, a: AccountId): World {
    w.(outstanding := w.outstanding[a := OutstandingOf(w, a) + 1])
  }

  function ReleaseOutstanding(w: World, a: AccountId): World {
    w.(outstanding := w.outstanding[a := if OutstandingOf(w, a) > 0 then OutstandingOf(w, a) - 1 else 0])
  }

  // ----- the cursor-advance rule

  /** Move past the step just handled, or complete. */
  function AdvanceAfterStep(steps: seq<StepDef>, c: Cursor, now: int, schedule: Schedule): Cursor {
    var next := c.step + 1;
    if next >= |steps| then c.(step := next, state := Completed, nextAt := None, lastAt := Some(now))
    else c.(step := next, state := InProgress, nextAt := Due(now, steps[next].delaySeconds, schedule), lastAt := Some(now))
  }

  // ----- replies

  function StageFor(intent: Intent): Stage {
    match intent
    case Stop | NotInterested => Lost
    case Interested | Question => InConversation
    case Referral | Objection | NotNow | OutOfOffice => Stage.Replied
  }

  /** Route a classified reply: leave the funnel, suppress on Stop, restage. */
  function RouteReply(w: World, t: TargetId, intent: Intent): World {
    var left := StopFunnel(w, t, ProgressState.Replied);
    var hushed := if intent == Stop && t in left.targets
                  then left.(suppressed := left.suppressed + {left.targets[t].person}) else left;
    Note(SetStage(hushed, t, StageFor(intent)), Routed(t))
  }

  /** What the send-time reply probe answers. `Answered` names the intent when the
      probe routed the reply itself, None when it had been routed before. */
  datatype Probe = NoProbe | Clear | Answered(route: Option<Intent>) | Broken

  function ProbeEffect(w: World, t: TargetId, p: Probe): World {
    if p.Answered? && p.route.Some? then RouteReply(w, t, p.route.value) else w
  }

  // ----- the executor as the funnel sees it

  /** `Ran` carries what the row says; `DriveThrew` leaves a failed row, `NoDrive`
      none; `MintRefused` is the token-time re-check declining. */
  datatype Exec = Ran(result: ActionResult) | DriveThrew | NoDrive | MintRefused

  function ExecEffect(w: World, t: TargetId, a: AccountId, kind: ActionType, x: Exec, via: Via): World {
    match x
    case Ran(result) =>
      var rowed := Note(w, Drove(w.clock, t, a, kind, result, via));
      if kind == ActionType.Connect && result == Success then AddOutstanding(rowed, a) else rowed
    case DriveThrew => Note(w, Drove(w.clock, t, a, kind, ActionResult.Failed, via))
    case NoDrive | MintRefused => w
  }

  /** The gate, with everything but the outstanding pile abstracted to one answer. */
  predicate GateOpen(plan: Plan, w: World, a: AccountId, kind: ActionType, restAllows: bool) {
    restAllows && (kind == ActionType.Connect ==> OutstandingOf(w, a) < plan.outstandingCeiling)
  }

  // ----- the dispatch step

  /** What a tick reports of one cursor. */
  datatype StepOutcome =
    | NoSteps | Exhausted | Delayed | CompletedByDelay
    | Held(reason: HoldReason)
    | FailedStep | Invitation | WasInvited | Executed

  datatype HoldReason =
    | NotConnected | StageStop | Suppressed | HasReplied | ProbeFailed
    | CrossCampaignActive | CrossCampaignContacted | AwaitsHuman | GateRefused

  datatype Result = Result(w: World, outcome: StepOutcome)

  /** Everything a step takes from outside: the instant, the rest of the gate's
      answer, the probe, the executor, the schedule, the draft text, and the order
      the store lists rows of one person in. */
  datatype StepInput = StepInput(
    now: int, restAllows: bool, probe: Probe, exec: Exec, schedule: Schedule, draft: Body, listing: seq<TargetId>)

  predicate Blocks(w: World, c: CampaignId, p: Person, other: TargetId) {
    && other in w.targets
    && w.targets[other].person == p
    && w.targets[other].campaign != c
    && Contacted(w.targets[other].stage)
  }

  /** The first listed row that contacts this person from another campaign. */
  function FirstBlocker(w: World, c: CampaignId, p: Person, listing: seq<TargetId>): (r: Option<TargetId>)
    ensures r.Some? ==> Blocks(w, c, p, r.value)
    ensures r.None? ==> forall other :: other in listing ==> !Blocks(w, c, p, other)
  {
    if listing == [] then None
    else if Blocks(w, c, p, listing[0]) then Some(listing[0])
    else FirstBlocker(w, c, p, listing[1..])
  }

  function HeldByOtherCampaign(w: World, t: TargetId, c: CampaignId, listing: seq<TargetId>): Option<TargetId> {
    if t in w.targets then FirstBlocker(w, c, w.targets[t].person, listing) else None
  }

  function FailCursor(w: World, t: TargetId): World
    requires t in w.cursors
  {
    SetCursor(w, t, w.cursors[t].(state := ProgressState.Failed, nextAt := None))
  }

  /** An invite's three endings: parked, already invited, failed. */
  function ParkAfterConnect(w: World, t: TargetId, result: ActionResult): Result
    requires t in w.cursors
  {
    var c := w.cursors[t].(nextAt := None, lastAt := Some(w.clock));
    match result
    case Skipped => Result(SetCursor(SetStage(w, t, Invited), t, c.(state := AlreadyInvited)), WasInvited)
    case Success => Result(SetCursor(SetStage(w, t, Invited), t, c.(state := AwaitingConnection)), Invitation)
    case _ => Result(FailCursor(w, t), FailedStep)
  }

  /** The guards a message step passes before it may reach the gate; None lets it through. */
  function MessageGuard(w: World, t: TargetId, i: StepInput): Option<Result>
    requires t in w.cursors
  {
    if t in w.targets && StopStage(w.targets[t].stage) then
      Some(Result(StopFunnel(w, t, ProgressState.Replied), Held(StageStop)))
    else if t !in w.targets || w.targets[t].stage != Connected then Some(Result(w, Held(NotConnected)))
    else if IsSuppressed(w, t) then Some(Result(StopFunnel(w, t, ProgressState.Replied), Held(Suppressed)))
    else if i.probe.Broken? && MayExecuteDirectly(LevelOf(w, w.cursors[t].campaign), ActionType.Message) then
      Some(Result(w, Held(ProbeFailed)))
    else if i.probe.Answered? then Some(Result(ProbeEffect(w, t, i.probe), Held(HasReplied)))
    else None
  }

  function ConnectGuard(w: World, t: TargetId): Option<Result> {
    if IsSuppressed(w, t) then Some(Result(StopFunnel(w, t, ProgressState.Replied), Held(Suppressed))) else None
  }

  /** The cross-campaign contact lock. */
  function LockGuard(w: World, t: TargetId, i: StepInput): Option<Result>
    requires t in w.cursors
  {
    var blocker := HeldByOtherCampaign(w, t, w.cursors[t].campaign, i.listing);
    if blocker.None? then None
    else if w.targets[blocker.value].stage == Invited then Some(Result(w, Held(CrossCampaignActive)))
    else Some(Result(SetStage(StopFunnel(w, t, ProgressState.Skipped), t, Lost), Held(CrossCampaignContacted)))
  }

  /** The guards of one action step, in order. */
  function Guard(w: World, t: TargetId, kind: ActionType, i: StepInput): Option<Result>
    requires t in w.cursors
  {
    var first := match kind
      case Message => MessageGuard(w, t, i)
      case Connect => ConnectGuard(w, t)
      case _ => None;
    if first.Some? then first
    else if kind in {ActionType.Message, ActionType.Connect} then LockGuard(w, t, i)
    else None
  }

  /** Queue a draft for approval and park the cursor. */
  function QueueDraft(w: World, t: TargetId, kind: ActionType, body: Body): World
    requires t in w.cursors
  {
    var c := w.cursors[t];
    var drafted := w.(messages := w.messages + [Message.Message(t, c.account, kind, body, Draft, w.clock)]);
    SetCursor(Note(drafted, Drafted(t, c.step, kind, |w.messages|)), t, c.(state := AwaitingApproval))
  }

  /** Through the gate: queue, refuse, or execute and resolve the cursor. */
  function Fire(plan: Plan, w: World, t: TargetId, kind: ActionType, i: StepInput): Result
    requires t in w.cursors
  {
    var c := w.cursors[t];
    var level := LevelOf(w, c.campaign);
    if !MayExecuteDirectly(level, kind) then Result(QueueDraft(w, t, kind, i.draft), Held(AwaitsHuman))
    else if !GateOpen(plan, w, c.account, kind, i.restAllows) || i.exec.MintRefused? then Result(w, Held(GateRefused))
    else
      var ran := ExecEffect(w, t, c.account, kind, i.exec, Direct(level, c.step));
      if !i.exec.Ran? then Result(FailCursor(ran, t), FailedStep)
      else if kind == ActionType.Connect then ParkAfterConnect(ran, t, i.exec.result)
      else if i.exec.result != Success then Result(FailCursor(ran, t), FailedStep)
      else Result(SetCursor(ran, t, AdvanceAfterStep(plan.Steps(c.campaign), c, w.clock, i.schedule)), Executed)
  }

  /** One sequence step of one cursor. */
  function DispatchStep(plan: Plan, w0: World, t: TargetId, i: StepInput): Result
    requires t in w0.cursors
  {
    var w := At(w0, i.now);
    var c := w.cursors[t];
    var steps := plan.Steps(c.campaign);
    if |steps| == 0 then Result(w, NoSteps)
    else if c.step >= |steps| then
      Result(SetCursor(w, t, c.(state := Completed, nextAt := None)), Exhausted)
    else
      match steps[c.step].kind
      case Delay =>
        var next := c.step + 1;
        if next >= |steps| then
          Result(SetCursor(w, t, c.(step := next, state := Completed, nextAt := None, lastAt := Some(w.clock))), CompletedByDelay)
        else
          Result(SetCursor(w, t, c.(step := next, nextAt := Due(w.clock, steps[next].delaySeconds, i.schedule),
                                    lastAt := Some(w.clock))), Delayed)
      case Act(kind) =>
        var guarded := Guard(w, t, kind, i);
        if guarded.Some? then guarded.value else Fire(plan, w, t, kind, i)
  }

  /** Which cursors a tick steps: due ones, and early drafts of message steps that cannot execute directly. */
  predicate MayStep(plan: Plan, w: World, t: TargetId, now: int) {
    && t in w.cursors
    && w.cursors[t].state == InProgress
    && var c := w.cursors[t];
    || c.nextAt.None?
    || c.nextAt.value <= now
    || (c.step < |plan.Steps(c.campaign)|
        && plan.Steps(c.campaign)[c.step].kind == Act(ActionType.Message)
        && !MayExecuteDirectly(LevelOf(w, c.campaign), ActionType.Message))
  }

  // ----- approved sends

  const MAX_SEND_ATTEMPTS := 5
  const SYSTEMIC_FAILURE_TARGETS := 3
  const LANE_HEALTH_WINDOW_MS := 24 * 3_600_000

  /** Failed rows of a target and type since an instant. */
  function CountFailed(log: seq<Entry>, t: TargetId, kind: ActionType, since: int): nat {
    if log == [] then 0
    else
      var e := log[|log| - 1];
      CountFailed(log[..|log| - 1], t, kind, since)
        + (if e.Drove? && e.target == t && e.kind == kind && e.result == ActionResult.Failed && e.at >= since then 1 else 0)
  }

  /** An action row of one account and type with a given result, at or after an instant. */
  predicate LaneRow(e: Entry, a: AccountId, kind: ActionType, result: ActionResult, since: int) {
    e.Drove? && e.account == a && e.kind == kind && e.result == result && e.at >= since
  }

  /** The distinct targets that failed in a lane since an instant. */
  function FailedTargets(log: seq<Entry>, a: AccountId, kind: ActionType, since: int): set<TargetId> {
    set k | 0 <= k < |log| && LaneRow(log[k], a, kind, ActionResult.Failed, since) :: log[k].target
  }

  predicate LaneSucceeded(log: seq<Entry>, a: AccountId, kind: ActionType, since: int) {
    exists k :: 0 <= k < |log| && LaneRow(log[k], a, kind, Success, since)
  }

  predicate LaneIsSystemicallyFailing(log: seq<Entry>, a: AccountId, kind: ActionType, now: int) {
    var since := now - LANE_HEALTH_WINDOW_MS;
    !LaneSucceeded(log, a, kind, since) && |FailedTargets(log, a, kind, since)| >= SYSTEMIC_FAILURE_TARGETS
  }

  datatype SendInput = SendInput(now: int, restAllows: bool, probe: Probe, exec: Exec, schedule: Schedule)

  function GiveUp(w: World, m: MessageId): World
    requires m < |w.messages|
  {
    var msg := w.messages[m];
    var dropped := SetStatus(w, m, Cancelled);
    var ended := if msg.target in w.cursors then FailCursor(dropped, msg.target) else dropped;
    Note(ended, Abandoned(w.clock, m, msg.target, msg.account, msg.kind))
  }

  function CancelApproved(w: World, m: MessageId): World
    requires m < |w.messages|
  {
    StopFunnel(SetStatus(w, m, Cancelled), w.messages[m].target, ProgressState.Replied)
  }

  /** The pre-send guards; None lets the send through. */
  function SendGuard(w: World, m: MessageId, i: SendInput): Option<World>
    requires m < |w.messages|
  {
    var msg := w.messages[m];
    var t := msg.target;
    var suppressed := IsSuppressed(w, t);
    if msg.kind != ActionType.Message then (if suppressed then Some(CancelApproved(w, m)) else None)
    else if (t in w.cursors && w.cursors[t].state == ProgressState.Replied) || t !in w.targets
            || w.targets[t].stage == Lost || suppressed then
      Some(CancelApproved(w, m))
    else if t in w.cursors && w.cursors[t].nextAt.Some? && w.cursors[t].nextAt.value > w.clock then Some(w)
    else if i.probe.Broken? then Some(w)
    else if i.probe.Answered? then Some(ProbeEffect(w, t, i.probe))
    else None
  }

  /** Resolve the row and the cursor from what the executor returned. */
  function SendResult(plan: Plan, w: World, m: MessageId, i: SendInput): World
    requires m < |w.messages|
  {
    var msg := w.messages[m];
    var t := msg.target;
    var ran := ExecEffect(w, t, msg.account, msg.kind, i.exec, ByApproval(m, msg.body));
    if !i.exec.Ran? then ran
    else match i.exec.result
      case Skipped =>
        var dropped := SetStatus(ran, m, Cancelled);
        if msg.kind == ActionType.Connect && t in w.cursors then ParkAfterConnect(dropped, t, ActionResult.Skipped).w else dropped
      case Success =>
        var sent := SetStatus(ran, m, Sent);
        if msg.kind == ActionType.Connect then
          var staged := SetStage(sent, t, Invited);
          if t in w.cursors && w.cursors[t].state == AwaitingApproval then
            SetCursor(staged, t, w.cursors[t].(state := AwaitingConnection, nextAt := None, lastAt := Some(w.clock)))
          else staged
        else if t in w.cursors && w.cursors[t].state == AwaitingApproval then
          SetCursor(sent, t, AdvanceAfterStep(plan.Steps(w.cursors[t].campaign), w.cursors[t], w.clock, i.schedule))
        else sent
      case _ => ran
  }

  /** One approved row: wait, give up, cancel, or send. */
  function SendApproved(plan: Plan, w0: World, m: MessageId, i: SendInput): World
    requires m < |w0.messages|
  {
    var w := At(w0, i.now);
    var msg := w.messages[m];
    if !GateOpen(plan, w, msg.account, msg.kind, i.restAllows) then w
    else if CountFailed(w.log, msg.target, msg.kind, msg.createdAt) >= MAX_SEND_ATTEMPTS then
      if LaneIsSystemicallyFailing(w.log, msg.account, msg.kind, w.clock) then w else GiveUp(w, m)
    else
      var guarded := SendGuard(w, m, i);
      if guarded.Some? then guarded.value
      else if i.exec.MintRefused? then w
      else SendResult(plan, w, m, i)
  }

  datatype CancelReason = PersonReplied | TargetMissing | StageLost | PersonSuppressed | NothingThere | AttemptsExhausted

  /** What a tick reports of one approved row; a row that must wait reports nothing. */
  datatype SendOutcome =
    | SendHeld | SendCancelled(reason: CancelReason) | InviteParked | InvitePending | Delivered(nextStep: int)

  /** Why an approved row may not go out any more. */
  function WhyCancel(w: World, m: MessageId): Option<CancelReason>
    requires m < |w.messages|
  {
    var t := w.messages[m].target;
    if w.messages[m].kind != ActionType.Message then (if IsSuppressed(w, t) then Some(PersonSuppressed) else None)
    else if t in w.cursors && w.cursors[t].state == ProgressState.Replied then Some(PersonReplied)
    else if t !in w.targets then Some(TargetMissing)
    else if w.targets[t].stage == Lost then Some(StageLost)
    else if IsSuppressed(w, t) then Some(PersonSuppressed)
    else None
  }

  /** What is reported of a row a guard stopped. */
  function GuardReport(w: World, m: MessageId, i: SendInput): Option<SendOutcome>
    requires m < |w.messages|
  {
    var t := w.messages[m].target;
    if WhyCancel(w, m).Some? then Some(SendCancelled(WhyCancel(w, m).value))
    else if t in w.cursors && w.cursors[t].nextAt.Some? && w.cursors[t].nextAt.value > w.clock then None
    else if i.probe.Answered? then Some(SendHeld)
    else None
  }

  /** What is reported of a row the executor was asked to send. */
  function DriveReport(w: World, m: MessageId, i: SendInput): Option<SendOutcome>
    requires m < |w.messages|
  {
    var msg := w.messages[m];
    var parked := msg.target in w.cursors && w.cursors[msg.target].state == AwaitingApproval;
    if i.exec == Ran(ActionResult.Skipped) then
      Some(if msg.kind == ActionType.Connect && msg.target in w.cursors then InvitePending else SendCancelled(NothingThere))
    else if i.exec == Ran(Success) then
      Some(if !parked then Delivered(-1)
           else if msg.kind == ActionType.Connect then InviteParked
           else Delivered(w.cursors[msg.target].step + 1))
    else None
  }

  function SendReport(plan: Plan, w0: World, m: MessageId, i: SendInput): Option<SendOutcome>
    requires m < |w0.messages|
  {
    var w := At(w0, i.now);
    var msg := w.messages[m];
    if !GateOpen(plan, w, msg.account, msg.kind, i.restAllows) then None
    else if CountFailed(w.log, msg.target, msg.kind, msg.createdAt) >= MAX_SEND_ATTEMPTS then
      if LaneIsSystemicallyFailing(w.log, msg.account, msg.kind, w.clock) then None else Some(SendCancelled(AttemptsExhausted))
    else if SendGuard(w, m, i).Some? then GuardReport(w, m, i)
    else DriveReport(w, m, i)
  }

  // ----- the other writers

  /** An accepted invite: the lead is connected, its cursor leaves the connect step behind. */
  function AcceptInvite(plan: Plan, w0: World, t: TargetId, now: int, schedule: Schedule): World
    requires t in w0.cursors
  {
    var w := At(w0, now);
    if t !in w.targets then w
    else
      var c := w.cursors[t];
      var moved := SetCursor(SetStage(w, t, Connected), t, AdvanceAfterStep(plan.Steps(c.campaign), c, now, schedule));
      Note(ReleaseOutstanding(moved, c.account), Accepted(t))
  }

  /** The operator decides a draft. A rejection through the approval tool also stops
      the parked cursor (`resume`); through the audit-only route it does not. */
  function DecideDraft(w: World, m: MessageId, d: ApprovalDecision, newBody: Body, resume: bool): World
    requires m < |w.messages|
  {
    var msg := w.messages[m];
    if msg.status != Draft then w
    else
      var body := if d == Edit then newBody else msg.body;
      var status := if d == Reject then Rejected else Approved;
      var decided := Note(w.(messages := w.messages[m := msg.(body := body, status := status)]), Decided(m, d, body));
      var t := msg.target;
      if d == Reject && resume && t in w.cursors && w.cursors[t].state == AwaitingApproval then
        SetCursor(decided, t, w.cursors[t].(state := ProgressState.Skipped, nextAt := None))
      else decided
  }

  /** A withdrawn invite frees the lead it belonged to. */
  function ReleaseParked(w: World, t: TargetId, terminal: ProgressState): World
    requires t in w.cursors
  {
    var c := w.cursors[t];
    ReleaseOutstanding(SetCursor(SetStage(w, t, Lost), t, c.(state := terminal, nextAt := None)), c.account)
  }

  /** A gated single withdrawal, asked for by the account that holds the cursor. */
  function WithdrawInviteNow(plan: Plan, w: World, t: TargetId, restAllows: bool, x: Exec): World
    requires t in w.cursors
  {
    var c := w.cursors[t];
    var level := LevelOf(w, c.campaign);
    if !MayExecuteDirectly(level, ActionType.WithdrawInvite) || !restAllows || x.MintRefused? then w
    else
      var ran := ExecEffect(w, t, c.account, ActionType.WithdrawInvite, x, Operator(level));
      if x == Ran(Success) && c.state == AwaitingConnection then ReleaseParked(ran, t, Withdrawn) else ran
  }

  function RemoveTarget(w: World, t: TargetId): World {
    if t !in w.targets then w
    else
      var left := StopFunnel(w, t, ProgressState.Skipped);
      var staged := if Contacted(w.targets[t].stage) then SetStage(left, t, Lost) else left;
      Note(staged.(targets := staged.targets[t := staged.targets[t].(removed := true)]), Removed(t))
  }

  /** Enrollment skips removed and elsewhere-contacted people and never touches an existing cursor. */
  function EnrollTarget(w: World, t: TargetId, a: AccountId, startAt: Option<int>, listing: seq<TargetId>): World {
    if t !in w.targets || w.targets[t].removed || t in w.cursors
       || FirstBlocker(w, w.targets[t].campaign, w.targets[t].person, listing).Some? then w
    else SetCursor(w, t, Cursor(w.targets[t].campaign, a, InProgress, 0, startAt, None))
  }

  /** Cursors parked for acceptance under one account. */
  function ParkedOf(w: World, a: AccountId): set<TargetId> {
    set t | t in w.cursors && w.cursors[t].state == AwaitingConnection && w.cursors[t].account == a
  }

  /** Boot: the counter of every known account is re-derived from the parked cursors. */
  function RestartProcess(w: World): World {
    w.(outstanding := map a | a in w.outstanding.Keys + (set t | t in w.cursors :: w.cursors[t].account) :: |ParkedOf(w, a)|)
  }
}
