/**
  The deployment runner as a system of atomic steps.

  One goroutine per *position* of the target list runs `deployToInstance`; the goroutines
  share one record per instance *id*. Between any two of their steps agents may report,
  connect or disconnect, the clock may move, and the deployment may be cancelled. A step is
  named by an `Action`; `Enabled` says when it may happen and `Do` what it does.
*/
module RunnerModel {
  import opened HubTypes
  import opened DeploymentPlan

  /** What a run works on: the targets, the version and the batches they are cut into. */
  datatype JobData = JobData(targets: seq<Id>, version: int, timing: Timing, plan: seq<Stage>)

  type Job = j: JobData | Tiles(j.plan, |j.targets|) witness JobData([], 0, DEFAULT_TIMING, [])

  /** The job of a deployment row. */
  function JobOf(c: Config): (j: Job)
    requires WellTyped(c)
    ensures j.plan == Plan(c) && j.targets == c.targets && j.version == c.version && j.timing == c.timing
  {
    PlanTiles(c);
    JobData(c.targets, c.version, c.timing, Plan(c))
  }

  function StageAt(j: Job, k: nat): (s: Stage)
    requires k < |j.plan|
    ensures s == j.plan[k]
    ensures Frontier(j.plan, k) == s.lo <= s.hi == Frontier(j.plan, k + 1) <= |j.targets|
    ensures |j.targets| > 0 ==> s.lo < s.hi
  {
    assert Tile(j.plan, k, |j.targets|);
    j.plan[k]
  }

  lemma {:induction false} FrontierGrows(j: Job, k: nat, n: nat)
    requires k <= n <= |j.plan|
    ensures Frontier(j.plan, k) <= Frontier(j.plan, n) <= |j.targets|
  {
    if k < n {
      FrontierGrows(j, k, n - 1);
      assert Tile(j.plan, n - 1, |j.targets|);
    } else if k > 0 {
      assert Tile(j.plan, k - 1, |j.targets|);
    }
  }

  /** Error texts, one constructor each; agents may send any text of their own. */
  datatype Message =
    | NoMessage
    | Details(text: string)
    | NotConnected
    | NotDelivered
    | ContextDone
    | TimedOut
    | LeaseExpired
    | DeploymentFailed(cause: Message)
    | InstanceRolledBack

  /** The runner's record of one instance. */
  datatype InstanceResult = InstanceResult(
    status: DeploymentState,
    startedAt: Option<nat>,
    completedAt: Option<nat>,
    lastStatusAt: Option<nat>,
    errorMessage: Message
  )

  const PENDING_RESULT := InstanceResult(Pending, None, None, None, NoMessage)

  /** Where a `deployToInstance` goroutine stands. */
  datatype Routine =
    | Idle                                        // not started
    | Spawned(k: nat)                             // started for stage k, record not reset yet
    | Checking(k: nat)                            // about to look for a subscription
    | Notifying(k: nat)                           // about to send the deploy event
    | Notified                                    // event sent, timers not armed yet
    | Waiting(since: nat, nextTick: nat)          // in the polling loop
    | Marking                                     // about to record completion
    | Failing(notified: bool, reason: Message)     // about to record failure
    | Returned(ok: bool)

  /** Notified, and not returned yet. */
  predicate InFlight(m: Routine) {
    m.Notified? || m.Waiting? || m.Marking? || (m.Failing? && m.notified)
  }

  /** Where the run itself stands. */
  datatype Control =
    | Entering                                    // in-progress write next
    | AtStage(k: nat)                             // stage k begins next, or the plan is done
    | InStage(k: nat)                             // waiting for the goroutines of stage k
    | Settled(k: nat)                             // stage k succeeded
    | Paused(k: nat, since: nat)
    | HealthCheck(k: nat)                         // canary health check next
    | RollingBack(k: nat)                         // snapshot of completed instances next
    | LookingUp(k: nat, todo: seq<Id>)            // previous version looked up next
    | Reverting(k: nat, todo: seq<Id>)            // rollback events being sent
    | Ending(failed: bool)                        // outcome judged next
    | Writing(status: DeploymentStatus)           // final status write next
    | Exited

  /** History of a run, kept for specification only. */
  datatype Event =
    | Reset(p: nat)
    | Sent(p: nat, k: nat, id: Id, version: int, position: int, total: int)
    | Reported(id: Id, state: DeploymentState)
    | Finished(p: nat, ok: bool)
    | Snapshotted(ids: set<Id>)
    | Reverted(id: Id, version: int)
    | Decided(status: DeploymentStatus)

  datatype State = State(
    now: nat,
    deadline: nat,                 // instant at which the run context times out
    ctl: Control,
    members: seq<Routine>,          // one per position of the target list
    results: map<Id, InstanceResult>,
    settled: nat,                  // positions of stages that have succeeded
    spawned: nat,                  // positions whose goroutine has been started
    failedStage: Option<nat>,
    row: DeploymentStatus,         // the stored status
    pendingCancels: nat,           // cancellers that read an active row and will write it
    cancelRequested: bool,         // the runner's own context is cancelled
    parentDone: bool,
    ctxDone: bool,                 // the run context is done
    subscribed: set<Id>,
    log: seq<Event>
  )

  /** What happens around the run. */
  datatype Outside =
    | Elapse(d: nat)
    | Report(id: Id, state: DeploymentState, details: string)
    | Connect(id: Id)
    | Disconnect(id: Id)
    | RequestCancel
    | StopParent
    | FireContext
    | CancelRead
    | CancelWrite(ok: bool)

  /** Atomic steps of one `deployToInstance` goroutine. */
  datatype Step =
    | ResetRecord
    | CheckSubscribed
    | Notify(delivered: bool)
    | Arm
    | Poll
    | GiveUp
    | TimeOut
    | Mark
    | RecordFailure

  /** Atomic steps of `Run` itself. */
  datatype Move =
    | Start(ok: bool)
    | Begin
    | Collect
    | Advance(ok: bool)
    | ResumeDone
    | ResumeTimer
    | CheckHealth
    | Snapshot(order: seq<Id>)
    | Lookup(found: bool)
    | Revert(delivered: bool)
    | Judge
    | Conclude(ok: bool)

  datatype Action =
    | Around(o: Outside)
    | Member(p: nat, step: Step)
    | Runner(move: Move)

  // ----- pieces of the transition function

  datatype Verdict = Continue | Succeeded | GaveUp(reason: Message)

  /** What one tick of the polling loop makes of the record. */
  function PollVerdict(r: InstanceResult, now: nat, leaseTimeout: nat): Verdict {
    if r.lastStatusAt.Some? && r.status.InProgress? && now > r.lastStatusAt.value + leaseTimeout then
      GaveUp(LeaseExpired)
    else match r.status
      case Completed => Succeeded
      case Failed => GaveUp(DeploymentFailed(r.errorMessage))
      case RolledBack => GaveUp(InstanceRolledBack)
      case _ => Continue
  }

  /** The ticker fires at multiples of the interval and drops ticks nobody received. */
  function NextTick(since: nat, now: nat): (t: nat)
    requires since <= now
    ensures now < t <= now + POLL_INTERVAL && (t - since) % POLL_INTERVAL == 0
  {
    since + POLL_INTERVAL * ((now - since) / POLL_INTERVAL + 1)
  }

  /** The effect of an agent's report on the record of its instance. */
  function ApplyReport(r: InstanceResult, now: nat, state: DeploymentState, details: string): InstanceResult {
    InstanceResult(
      state,
      r.startedAt,
      if state.Completed? || state.Failed? || state.RolledBack? then Some(now) else r.completedAt,
      Some(now),
      if details != "" then Details(details) else r.errorMessage)
  }

  function FreshLease(now: nat): InstanceResult {
    InstanceResult(InProgress, Some(now), None, Some(now), NoMessage)
  }

  predicate AllSucceeded(results: map<Id, InstanceResult>) {
    forall id :: id in results ==> results[id].status.Completed?
  }

  predicate Healthy(results: map<Id, InstanceResult>, ids: seq<Id>) {
    forall i :: 0 <= i < |ids| ==> ids[i] in results && results[ids[i]].status.Completed?
  }

  function CompletedIds(results: map<Id, InstanceResult>): set<Id> {
    set id | id in results && results[id].status.Completed?
  }

  /** `order` lists the elements of `ids` once each: one iteration order of a Go map. */
  predicate Enumerates(order: seq<Id>, ids: set<Id>) {
    && (forall i, j :: 0 <= i < j < |order| ==> order[i] != order[j])
    && (forall i :: 0 <= i < |order| ==> order[i] in ids)
    && (forall id :: id in ids ==> id in order)
  }

  predicate AllReturned(members: seq<Routine>, lo: nat, hi: nat)
    requires lo <= hi <= |members|
  {
    forall p :: lo <= p < hi ==> members[p].Returned?
  }

  predicate AllOk(members: seq<Routine>, lo: nat, hi: nat)
    requires lo <= hi <= |members|
  {
    forall p :: lo <= p < hi ==> members[p] == Returned(true)
  }

  function SpawnRange(members: seq<Routine>, k: nat, lo: nat, hi: nat): (r: seq<Routine>)
    ensures |r| == |members|
    ensures forall p :: 0 <= p < |r| ==> r[p] == if lo <= p < hi then Spawned(k) else members[p]
  {
    seq(|members|, p requires 0 <= p < |members| => if lo <= p < hi then Spawned(k) else members[p])
  }

  // ----- initial states

  /** Indices mentioned by the control state exist in the plan, and members match targets. */
  predicate Shape(j: Job, s: State)
  {
    && |s.members| == |j.targets|
    && s.results.Keys == TargetSet(j)
    && (forall p :: 0 <= p < |s.members| ==> RoutineShape(|j.plan|, s.members[p]))
    && ControlShape(j.plan, s.ctl)
  }

  function TargetSet(j: Job): set<Id> {
    set i | 0 <= i < |j.targets| :: j.targets[i]
  }

  predicate RoutineShape(stages: nat, m: Routine) {
    && ((m.Spawned? || m.Checking? || m.Notifying?) ==> m.k < stages)
    && (m.Waiting? ==> m.since <= m.nextTick)
  }

  predicate ControlShape(plan: seq<Stage>, ctl: Control) {
    match ctl
    case AtStage(k) => k <= |plan|
    case InStage(k) => k < |plan|
    case Settled(k) => k < |plan|
    case Paused(k, _) => k < |plan| && plan[k].pause.Some?
    case HealthCheck(k) => k < |plan|
    case RollingBack(k) => k < |plan|
    case LookingUp(k, _) => k < |plan|
    case Reverting(k, _) => k < |plan|
    case _ => true
  }

  /** The state in which `Run` is entered, whatever the row, the fleet and the contexts look
      like by then, and whatever agents have already reported. */
  predicate Init(j: Job, s: State)
  {
    && Shape(j, s)
    && s.ctl == Entering
    && s.deadline == s.now + j.timing.timeout
    && (forall p :: 0 <= p < |s.members| ==> s.members[p] == Idle)
    && s.settled == 0 && s.spawned == 0
    && s.failedStage == None
    && s.log == []
    && !s.ctxDone
  }

  // ----- steps

  predicate OutsideEnabled(s: State, o: Outside) {
    match o
    case Elapse(d) => s.ctxDone || s.now + d <= s.deadline
    case FireContext => s.cancelRequested || s.parentDone || s.now >= s.deadline
    case CancelWrite(_) => s.pendingCancels > 0
    case _ => true
  }

  predicate StepEnabled(j: Job, s: State, p: nat, step: Step)
    requires Shape(j, s) && p < |s.members|
  {
    var m := s.members[p];
    match step
    case ResetRecord => m.Spawned?
    case CheckSubscribed => m.Checking?
    case Notify(delivered) => m.Notifying? && (delivered ==> j.targets[p] in s.subscribed)
    case Arm => m.Notified?
    case Poll => m.Waiting? && m.nextTick <= s.now
    case GiveUp => m.Waiting? && s.ctxDone
    case TimeOut => m.Waiting? && s.now >= m.since + j.timing.instanceTimeout
    case Mark => m.Marking?
    case RecordFailure => m.Failing?
  }

  predicate MoveEnabled(j: Job, s: State, move: Move)
    requires Shape(j, s)
  {
    match move
    case Start(_) => s.ctl.Entering?
    case Begin => s.ctl.AtStage?
    case Collect => s.ctl.InStage? && AllReturned(s.members, StageAt(j, s.ctl.k).lo, StageAt(j, s.ctl.k).hi)
    case Advance(_) => s.ctl.Settled?
    case ResumeDone => s.ctl.Paused? && s.ctxDone
    case ResumeTimer => s.ctl.Paused? && s.now >= s.ctl.since + StageAt(j, s.ctl.k).pause.value
    case CheckHealth => s.ctl.HealthCheck?
    case Snapshot(order) => s.ctl.RollingBack? && Enumerates(order, CompletedIds(s.results))
    case Lookup(_) => s.ctl.LookingUp?
    case Revert(delivered) =>
      s.ctl.Reverting? && (delivered ==> s.ctl.todo != [] && s.ctl.todo[0] in s.subscribed)
    case Judge => s.ctl.Ending?
    case Conclude(_) => s.ctl.Writing?
  }

  predicate Enabled(j: Job, s: State, a: Action)
    requires Shape(j, s)
  {
    match a
    case Around(o) => OutsideEnabled(s, o)
    case Member(p, step) => p < |s.members| && StepEnabled(j, s, p, step)
    case Runner(move) => MoveEnabled(j, s, move)
  }

  function DoOutside(s: State, o: Outside): (s': State)
    requires OutsideEnabled(s, o)
    ensures s'.results.Keys == s.results.Keys
    ensures s' == s.(now := s'.now, results := s'.results, subscribed := s'.subscribed,
                     cancelRequested := s'.cancelRequested, parentDone := s'.parentDone, ctxDone := s'.ctxDone,
                     pendingCancels := s'.pendingCancels, row := s'.row)
  {
    match o
    case Elapse(d) => s.(now := s.now + d)
    case Report(id, state, details) =>
      if id !in s.results then s
      else s.(results := s.results[id := ApplyReport(s.results[id], s.now, state, details)])
    case Connect(id) => s.(subscribed := s.subscribed + {id})
    case Disconnect(id) => s.(subscribed := s.subscribed - {id})
    case RequestCancel => s.(cancelRequested := true)
    case StopParent => s.(parentDone := true)
    case FireContext => s.(ctxDone := true)
    case CancelRead =>
      if s.row.RowPending? || s.row.RowInProgress? then s.(pendingCancels := s.pendingCancels + 1) else s
    case CancelWrite(ok) =>
      s.(pendingCancels := s.pendingCancels - 1, row := if ok then RowCancelled else s.row)
  }

  /** `s` with goroutine `p` moved to `m`. */
  function Go(j: Job, s: State, p: nat, m: Routine): (s': State)
    requires Shape(j, s)
    requires p < |s.members| && RoutineShape(|j.plan|, m)
    ensures Shape(j, s')
  {
    s.(members := s.members[p := m])
  }

  /** `s` with the record of position `p` replaced. */
  function Put(j: Job, s: State, p: nat, r: InstanceResult): (s': State)
    requires Shape(j, s)
    requires p < |s.members|
    ensures Shape(j, s')
  {
    s.(results := s.results[j.targets[p] := r])
  }

  function DoStep(j: Job, s: State, p: nat, step: Step): (s': State)
    requires Shape(j, s) && p < |s.members|
    requires StepEnabled(j, s, p, step)
    ensures Shape(j, s')
    ensures s' == s.(members := s'.members, results := s'.results)
  {
    var m := s.members[p];
    var id := j.targets[p];
    match step
    case ResetRecord => Go(j, Put(j, s, p, FreshLease(s.now)), p, Checking(m.k))
    case CheckSubscribed =>
      Go(j, s, p, if id in s.subscribed then Notifying(m.k) else Failing(false, NotConnected))
    case Notify(delivered) => Go(j, s, p, if delivered then Notified else Failing(false, NotDelivered))
    case Arm => Go(j, s, p, Waiting(s.now, s.now + POLL_INTERVAL))
    case Poll => Go(j, s, p, AfterPoll(m, s.results[id], s.now, j.timing.leaseTimeout))
    case GiveUp => Go(j, s, p, Failing(true, ContextDone))
    case TimeOut => Go(j, s, p, Failing(true, TimedOut))
    case Mark => Go(j, Put(j, s, p, Marked(s.results[id], s.now)), p, Returned(true))
    case RecordFailure => Go(j, Put(j, s, p, Errored(s.results[id], s.now, m.reason)), p, Returned(false))
  }

  function Marked(r: InstanceResult, now: nat): InstanceResult {
    r.(status := Completed, completedAt := Some(now))
  }

  function Errored(r: InstanceResult, now: nat, reason: Message): InstanceResult {
    r.(status := Failed, completedAt := Some(now), errorMessage := reason)
  }

  function AfterPoll(m: Routine, r: InstanceResult, now: nat, leaseTimeout: nat): Routine
    requires m.Waiting? && m.since <= now
  {
    match PollVerdict(r, now, leaseTimeout)
    case Succeeded => Marking
    case GaveUp(reason) => Failing(true, reason)
    case Continue => Waiting(m.since, NextTick(m.since, now))
  }

  /** A store call made under the run context succeeds only while that context is live. */
  predicate Stored(s: State, ok: bool) {
    ok && !s.ctxDone
  }

  function DoMove(j: Job, s: State, move: Move): (s': State)
    requires Shape(j, s)
    requires MoveEnabled(j, s, move)
    ensures Shape(j, s')
    ensures move.Begin? ==> s' == s.(ctl := s'.ctl, members := s'.members, spawned := s'.spawned)
    ensures !move.Begin? ==> s' == s.(ctl := s'.ctl, row := s'.row, settled := s'.settled, failedStage := s'.failedStage)
  {
    match move
    case Start(ok) =>
      if Stored(s, ok) then s.(row := RowInProgress, ctl := AtStage(0)) else s.(ctl := Exited)
    case Begin => DoBegin(j, s)
    case Collect => DoCollect(j, s)
    case Advance(ok) => DoAdvance(j, s, ok)
    case ResumeDone => s.(ctl := Ending(true))
    case ResumeTimer =>
      s.(ctl := if StageAt(j, s.ctl.k).checksHealth then HealthCheck(s.ctl.k) else AtStage(s.ctl.k + 1))
    case CheckHealth => DoCheckHealth(j, s)
    case Snapshot(order) => DoRollback(j, s, move)
    case Lookup(found) => DoRollback(j, s, move)
    case Revert(_) => DoRollback(j, s, move)
    case Judge => s.(ctl := Writing(Outcome(s.ctl.failed, s.results)))
    case Conclude(ok) =>
      s.(row := if Stored(s, ok) then s.ctl.status else s.row, ctl := Exited)
  }

  function DoBegin(j: Job, s: State): (s': State)
    requires Shape(j, s) && s.ctl.AtStage?
    ensures Shape(j, s') && s' == s.(ctl := s'.ctl, members := s'.members, spawned := s'.spawned)
  {
    if s.ctl.k == |j.plan| then s.(ctl := Ending(false))
    else
      var stage := StageAt(j, s.ctl.k);
      if stage.checksContext && s.ctxDone then s.(ctl := Ending(true))
      else s.(ctl := InStage(s.ctl.k),
              members := SpawnRange(s.members, s.ctl.k, stage.lo, stage.hi),
              spawned := stage.hi)
  }

  function DoCollect(j: Job, s: State): (s': State)
    requires Shape(j, s) && MoveEnabled(j, s, Collect)
    ensures Shape(j, s') && s' == s.(ctl := s'.ctl, settled := s'.settled, failedStage := s'.failedStage)
  {
    var stage := StageAt(j, s.ctl.k);
    if AllOk(s.members, stage.lo, stage.hi) then s.(settled := stage.hi, ctl := Settled(s.ctl.k))
    else s.(failedStage := Some(s.ctl.k),
            ctl := if stage.rollsBack then RollingBack(s.ctl.k) else Ending(true))
  }

  function DoAdvance(j: Job, s: State, ok: bool): (s': State)
    requires Shape(j, s) && s.ctl.Settled?
    ensures Shape(j, s') && s' == s.(ctl := s'.ctl, row := s'.row)
  {
    var stage := StageAt(j, s.ctl.k);
    s.(row := if stage.writesProgress && Stored(s, ok) then RowInProgress else s.row,
       ctl := if stage.pause.Some? then Paused(s.ctl.k, s.now) else AtStage(s.ctl.k + 1))
  }

  function DoCheckHealth(j: Job, s: State): (s': State)
    requires Shape(j, s) && s.ctl.HealthCheck?
    ensures Shape(j, s') && s' == s.(ctl := s'.ctl, failedStage := s'.failedStage)
  {
    var stage := StageAt(j, s.ctl.k);
    if Healthy(s.results, j.targets[stage.lo..stage.hi]) then s.(ctl := AtStage(s.ctl.k + 1))
    else s.(failedStage := Some(s.ctl.k), ctl := RollingBack(s.ctl.k))
  }

  function DoRollback(j: Job, s: State, move: Move): (s': State)
    requires Shape(j, s) && MoveEnabled(j, s, move) && (move.Snapshot? || move.Lookup? || move.Revert?)
    ensures Shape(j, s') && s' == s.(ctl := s'.ctl)
  {
    match move
    case Snapshot(order) =>
      s.(ctl := if order == [] || j.version - 1 < 1 then Ending(true) else LookingUp(s.ctl.k, order))
    case Lookup(found) =>
      s.(ctl := if Stored(s, found) then Reverting(s.ctl.k, s.ctl.todo) else Ending(true))
    case Revert(_) =>
      s.(ctl := if s.ctl.todo == [] then Ending(true) else Reverting(s.ctl.k, s.ctl.todo[1..]))
  }

  /** The status a run ends with. */
  function Outcome(failed: bool, results: map<Id, InstanceResult>): DeploymentStatus {
    if !failed && AllSucceeded(results) then RowCompleted else RowFailed
  }

  /** What an action adds to the history. */
  function Events(j: Job, s: State, a: Action): (e: seq<Event>)
    requires Shape(j, s) && Enabled(j, s, a)
    ensures |e| <= 1
  {
    match a
    case Around(Report(id, state, _)) => if id in s.results then [Reported(id, state)] else []
    case Around(_) => []
    case Member(p, step) => StepEvents(j, s, p, step)
    case Runner(move) => MoveEvents(j, s, move)
  }

  function StepEvents(j: Job, s: State, p: nat, step: Step): (e: seq<Event>)
    requires Shape(j, s) && p < |s.members| && StepEnabled(j, s, p, step)
    ensures |e| <= 1
  {
    match step
    case ResetRecord => [Reset(p)]
    case Notify(true) =>
      var k := s.members[p].k;
      [Sent(p, k, j.targets[p], j.version, StageAt(j, k).position, StageAt(j, k).total)]
    case Mark => [Finished(p, true)]
    case RecordFailure => [Finished(p, false)]
    case _ => []
  }

  function MoveEvents(j: Job, s: State, move: Move): (e: seq<Event>)
    requires Shape(j, s) && MoveEnabled(j, s, move)
    ensures |e| <= 1
  {
    match move
    case Snapshot(_) => [Snapshotted(CompletedIds(s.results))]
    case Revert(true) => [Reverted(s.ctl.todo[0], j.version - 1)]
    case Judge => [Decided(Outcome(s.ctl.failed, s.results))]
    case _ => []
  }

  /** The effect of an action, its trace in the history aside. */
  function Effect(j: Job, s: State, a: Action): (s': State)
    requires Shape(j, s) && Enabled(j, s, a)
    ensures Shape(j, s')
  {
    match a
    case Around(o) => DoOutside(s, o)
    case Member(p, step) => DoStep(j, s, p, step)
    case Runner(move) => DoMove(j, s, move)
  }

  function Do(j: Job, s: State, a: Action): (s': State)
    requires Shape(j, s) && Enabled(j, s, a)
    ensures Shape(j, s')
  {
    Effect(j, s, a).(log := s.log + Events(j, s, a))
  }

  // ----- runs

  /** States and the actions between them. */
  datatype Behaviour = Behaviour(states: seq<State>, acts: seq<Action>)

  ghost predicate Takes(j: Job, s: State, a: Action, s': State) {
    Shape(j, s) && Enabled(j, s, a) && s' == Do(j, s, a)
  }

  /** `b` is a finite piece of a run, from the moment `Run` is entered. */
  ghost predicate IsRun(j: Job, b: Behaviour) {
    && |b.states| == |b.acts| + 1
    && Init(j, b.states[0])
    && forall i {:trigger b.acts[i]} :: 0 <= i < |b.acts| ==> Takes(j, b.states[i], b.acts[i], b.states[i + 1])
  }
}
