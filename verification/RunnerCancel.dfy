/** When a cancellation written to the row can still be overwritten, and when a completed row is safe. */
module RunnerCancel {
  import opened HubTypes
  import opened DeploymentPlan
  import opened RunnerModel
  import opened RunnerSafety
  import opened RunnerRollback
  import opened RunnerTiming
  import opened RunnerTheorems
  import opened RunnerWitnesses

  // ----- the condition

  /** The first instant at which the goroutine can return, the context being live. */
  function ReadyAt(j: Job, s: State, m: Routine): nat {
    match m
    case Notified => s.now + Least(POLL_INTERVAL, j.timing.instanceTimeout)
    case Waiting(since, nextTick) => Least(nextTick, since + j.timing.instanceTimeout)
    case _ => s.now
  }

  function Least(a: nat, b: nat): nat {
    if a < b then a else b
  }

  /** The goroutine has succeeded, or will at its next step. */
  predicate Succeeds(m: Routine) {
    m.Marking? || m == Returned(true)
  }

  /** A batch that has succeeded by now writes progress, or is left before the deadline. */
  predicate LeftInTime(j: Job, s: State, k: nat)
    requires k < |j.plan|
  {
    var stage := StageAt(j, k);
    stage.writesProgress || stage.pause.None? || s.now + stage.pause.value <= s.deadline
  }

  /** The run can write its row again before its deadline. Members of the current batch that have not
      succeeded can fail, and a failure is written without delay; otherwise the pause must end in time. */
  predicate CanStillWrite(j: Job, s: State)
    requires Shape(j, s)
  {
    !s.ctxDone &&
    match s.ctl
    case Exited => false
    case Settled(k) => LeftInTime(j, s, k)
    case Paused(k, since) => since + StageAt(j, k).pause.value <= s.deadline
    case InStage(k) =>
      if forall p :: StageAt(j, k).lo <= p < StageAt(j, k).hi ==> Succeeds(s.members[p]) then LeftInTime(j, s, k)
      else forall p :: StageAt(j, k).lo <= p < StageAt(j, k).hi ==> ReadyAt(j, s, s.members[p]) <= s.deadline
    case _ => true
  }

  /** Batches that wait afterwards have members. */
  ghost predicate NoIdlePause(j: Job) {
    forall k :: 0 <= k < |j.plan| && j.plan[k].pause.Some? ==> j.plan[k].lo < j.plan[k].hi
  }

  lemma PlansHaveNoIdlePause(c: Config)
    requires WellTyped(c)
    ensures NoIdlePause(JobOf(c))
  {
    forall k | 0 <= k < |Plan(c)| && Plan(c)[k].pause.Some? ensures Plan(c)[k].lo < Plan(c)[k].hi {
      PauseIsNotIdle(c, k);
    }
    hide Plan;
  }

  lemma PauseIsNotIdle(c: Config, k: nat)
    requires WellTyped(c) && k < |Plan(c)| && Plan(c)[k].pause.Some?
    ensures Plan(c)[k].lo < Plan(c)[k].hi
  {
    if c.strategy.Rolling? || c.strategy.Unrecognised? {
      RollingTiles(c, 0, 0, true, k);
    } else if k > 0 {
      RollingTiles(c, CanarySize(|c.targets|), 1, false, k - 1);
    }
    hide RollingStages;
  }

  // ----- once it fails, nothing is written any more

  /** A cancelled row that the run will not write again. */
  ghost predicate Stuck(j: Job, s: State) {
    Shape(j, s) && s.row.RowCancelled? && !CanStillWrite(j, s)
  }

  lemma StuckOutside(j: Job, s: State, o: Outside)
    requires Stuck(j, s) && OutsideEnabled(s, o) && Shape(j, DoOutside(s, o))
    ensures Stuck(j, DoOutside(s, o))
  {
  }

  /** A member that keeps its batch from ending in time goes on doing so. */
  lemma LateStaysLate(j: Job, s: State, p: nat, step: Step)
    requires Shape(j, s) && p < |s.members| && StepEnabled(j, s, p, step)
    requires !s.ctxDone && s.now <= s.deadline
    ensures ReadyAt(j, s, s.members[p]) > s.deadline ==>
              ReadyAt(j, s, DoStep(j, s, p, step).members[p]) > s.deadline
    ensures Succeeds(s.members[p]) ==> Succeeds(DoStep(j, s, p, step).members[p])
    ensures ReadyAt(j, s, s.members[p]) > s.deadline ==> !Succeeds(DoStep(j, s, p, step).members[p])
  {
  }

  lemma StuckStep(j: Job, s: State, p: nat, step: Step)
    requires Stuck(j, s) && p < |s.members| && StepEnabled(j, s, p, step)
    requires !s.ctxDone ==> s.now <= s.deadline
    ensures Stuck(j, DoStep(j, s, p, step))
  {
    var s' := DoStep(j, s, p, step);
    StepKeepsRow(j, s, p, step);
    StepMovesOne(j, s, p, step);
    if !s.ctxDone && s.ctl.InStage? {
      LateStaysLate(j, s, p, step);
      var lo, hi := StageAt(j, s.ctl.k).lo, StageAt(j, s.ctl.k).hi;
      if !(forall r :: lo <= r < hi ==> Succeeds(s.members[r])) {
        var r :| lo <= r < hi && ReadyAt(j, s, s.members[r]) > s.deadline;
        assert ReadyAt(j, s', s'.members[r]) > s.deadline && !Succeeds(s'.members[r]);
      }
    }
  }

  lemma StuckMove(j: Job, s: State, move: Move)
    requires Stuck(j, s) && MoveEnabled(j, s, move)
    requires !s.ctxDone ==> s.now <= s.deadline
    ensures Stuck(j, DoMove(j, s, move))
  {
  }

  lemma StuckAction(j: Job, s: State, a: Action)
    requires Stuck(j, s) && Enabled(j, s, a) && (!s.ctxDone ==> s.now <= s.deadline)
    ensures Stuck(j, Do(j, s, a))
  {
    var e := Effect(j, s, a);
    assert Stuck(j, e) by {
      match a
      case Around(o) => StuckOutside(j, s, o);
      case Member(p, step) => StuckStep(j, s, p, step);
      case Runner(move) => StuckMove(j, s, move);
    }
    StuckIgnoresLog(j, e, Do(j, s, a).log);
  }

  lemma StuckIgnoresLog(j: Job, s: State, log: seq<Event>)
    requires Stuck(j, s)
    ensures Stuck(j, s.(log := log))
  {
    if s.ctl.InStage? && !s.ctxDone {
      var lo, hi := StageAt(j, s.ctl.k).lo, StageAt(j, s.ctl.k).hi;
      if !(forall p :: lo <= p < hi ==> Succeeds(s.members[p])) {
        var p :| lo <= p < hi && ReadyAt(j, s, s.members[p]) > s.deadline;
        assert ReadyAt(j, s.(log := log), s.members[p]) > s.deadline;
      }
    }
  }

  lemma {:induction false} StuckForever(j: Job, b: Behaviour, n: nat, m: nat)
    requires IsRun(j, b) && n <= m < |b.states| && Stuck(j, b.states[n])
    ensures Stuck(j, b.states[m])
  {
    if n < m {
      hide Stuck, Do;
      StuckForever(j, b, n, m - 1);
      SafeRun(j, b, m - 1);
      assert Takes(j, b.states[m - 1], b.acts[m - 1], b.states[m]);
      StuckAction(j, b.states[m - 1], b.acts[m - 1]);
    }
  }

  // ----- while it holds, a run that writes

  /** `c` goes on from `b` to a state whose row is not cancelled. */
  ghost predicate WritesAfter(j: Job, b: Behaviour, c: Behaviour) {
    IsRun(j, c) && GoesOn(b, c) && !Last(c).row.RowCancelled?
  }

  lemma DoRunner(j: Job, s: State, move: Move)
    requires Shape(j, s) && MoveEnabled(j, s, move) && MoveEvents(j, s, move) == []
    ensures Enabled(j, s, Runner(move)) && Do(j, s, Runner(move)) == DoMove(j, s, move)
  {
    assert s.log + [] == s.log;
  }

  lemma WriteFinal(j: Job, b: Behaviour, s: State) returns (c: Behaviour)
    requires Reaches(j, b, s) && Shape(j, s) && s.ctl.Writing? && !s.ctxDone && !s.ctl.status.RowCancelled?
    ensures WritesAfter(j, b, c)
  {
    c := Take(j, b, s, Runner(Conclude(true)));
  }

  lemma FromEnding(j: Job, b: Behaviour, s: State) returns (c: Behaviour)
    requires Reaches(j, b, s) && Shape(j, s) && s.ctl.Ending? && !s.ctxDone
    ensures WritesAfter(j, b, c)
  {
    hide Reaches;
    c := Take(j, b, s, Runner(Judge));
    var s1 := Do(j, s, Runner(Judge));
    c := WriteFinal(j, c, s1);
  }

  lemma {:induction false} FromReverting(j: Job, b: Behaviour, s: State) returns (c: Behaviour)
    requires Reaches(j, b, s) && Shape(j, s) && s.ctl.Reverting? && !s.ctxDone
    ensures WritesAfter(j, b, c)
    decreases |s.ctl.todo|
  {
    hide Reaches;
    DoRunner(j, s, Revert(false));
    c := Take(j, b, s, Runner(Revert(false)));
    var s1 := Do(j, s, Runner(Revert(false)));
    if s.ctl.todo == [] {
      c := FromEnding(j, c, s1);
    } else {
      c := FromReverting(j, c, s1);
    }
  }

  /** One order of the elements of a set. */
  lemma {:induction false} Order(ids: set<Id>) returns (order: seq<Id>)
    ensures Enumerates(order, ids)
  {
    if ids == {} {
      order := [];
    } else {
      var id :| id in ids;
      var rest := Order(ids - {id});
      order := rest + [id];
      assert forall i :: i in ids ==> i == id || i in rest;
    }
  }

  lemma FromRollingBack(j: Job, b: Behaviour, s: State) returns (c: Behaviour)
    requires Reaches(j, b, s) && Shape(j, s) && (s.ctl.RollingBack? || s.ctl.LookingUp?) && !s.ctxDone
    ensures WritesAfter(j, b, c)
  {
    hide Reaches;
    var s1 := s;
    c := b;
    if s.ctl.RollingBack? {
      var order := Order(CompletedIds(s.results));
      c := Take(j, c, s1, Runner(Snapshot(order)));
      s1 := Do(j, s1, Runner(Snapshot(order)));
    }
    if s1.ctl.LookingUp? {
      c := Take(j, c, s1, Runner(Lookup(false)));
      s1 := Do(j, s1, Runner(Lookup(false)));
    }
    c := FromEnding(j, c, s1);
  }

  // ----- bringing a batch to its end

  /** Only records, subscriptions, the history and the members in [lo, hi) differ. */
  ghost predicate MembersMoved(s: State, s': State, lo: nat, hi: nat) {
    && s' == s.(members := s'.members, results := s'.results, subscribed := s'.subscribed, log := s'.log)
    && |s'.members| == |s.members|
    && forall p :: 0 <= p < |s.members| && !(lo <= p < hi) ==> s'.members[p] == s.members[p]
  }

  /** Position `p` records its failure. */
  lemma FailOne(j: Job, b: Behaviour, s: State, p: nat) returns (c: Behaviour, s': State)
    requires Reaches(j, b, s) && Shape(j, s) && p < |s.members| && s.members[p].Failing?
    ensures Reaches(j, c, s') && GoesOn(b, c)
    ensures MembersMoved(s, s', p, p + 1) && s'.members[p] == Returned(false)
  {
    hide Reaches;
    c := Take(j, b, s, Member(p, RecordFailure));
    s' := Do(j, s, Member(p, RecordFailure));
  }

  /** Its agent having gone, it finds no subscription. */
  lemma FailUnsubscribed(j: Job, b: Behaviour, s: State, p: nat) returns (c: Behaviour, s': State)
    requires Reaches(j, b, s) && Shape(j, s) && p < |s.members| && (s.members[p].Spawned? || s.members[p].Checking?)
    ensures Reaches(j, c, s') && GoesOn(b, c)
    ensures MembersMoved(s, s', p, p + 1) && s'.members[p] == Returned(false)
  {
    hide Reaches, Enabled, Do, Shape;
    InShape(j, b, s);
    c, s' := b, s;
    if s.members[p].Spawned? {
      DoReset(j, s, p);
      c := Take(j, c, s', Member(p, ResetRecord));
      s' := Do(j, s, Member(p, ResetRecord));
      InShape(j, c, s');
    }
    var s1 := s';
    DoAround(j, s1, Disconnect(j.targets[p]));
    c := Take(j, c, s1, Around(Disconnect(j.targets[p])));
    s' := Do(j, s1, Around(Disconnect(j.targets[p])));
    InShape(j, c, s');
    var s2 := s';
    DoCheck(j, s2, p);
    c := Take(j, c, s2, Member(p, CheckSubscribed));
    s' := Do(j, s2, Member(p, CheckSubscribed));
    InShape(j, c, s');
    c, s' := FailOne(j, c, s', p);
  }

  lemma FailUnsent(j: Job, b: Behaviour, s: State, p: nat) returns (c: Behaviour, s': State)
    requires Reaches(j, b, s) && Shape(j, s) && p < |s.members| && s.members[p].Notifying?
    ensures Reaches(j, c, s') && GoesOn(b, c)
    ensures MembersMoved(s, s', p, p + 1) && s'.members[p] == Returned(false)
  {
    hide Reaches;
    c := Take(j, b, s, Member(p, Notify(false)));
    s' := Do(j, s, Member(p, Notify(false)));
    c, s' := FailOne(j, c, s', p);
  }

  /** At its timeout, or at a tick after a report of failure. */
  lemma FailWaiting(j: Job, b: Behaviour, s: State, p: nat) returns (c: Behaviour, s': State)
    requires Reaches(j, b, s) && Shape(j, s) && p < |s.members| && s.members[p].Waiting?
    requires ReadyAt(j, s, s.members[p]) <= s.now
    ensures Reaches(j, c, s') && GoesOn(b, c)
    ensures MembersMoved(s, s', p, p + 1) && s'.members[p] == Returned(false)
  {
    hide Reaches, Shape;
    InShape(j, b, s);
    if s.now >= s.members[p].since + j.timing.instanceTimeout {
      c, s' := TimeOutOne(j, b, s, p);
    } else {
      c, s' := RefuseOne(j, b, s, p);
    }
    InShape(j, c, s');
    c, s' := FailOne(j, c, s', p);
  }

  lemma TimeOutOne(j: Job, b: Behaviour, s: State, p: nat) returns (c: Behaviour, s': State)
    requires Reaches(j, b, s) && Shape(j, s) && p < |s.members| && s.members[p].Waiting?
    requires s.now >= s.members[p].since + j.timing.instanceTimeout
    ensures Reaches(j, c, s') && GoesOn(b, c)
    ensures MembersMoved(s, s', p, p + 1) && s'.members[p].Failing?
  {
    hide Reaches;
    c := Take(j, b, s, Member(p, TimeOut));
    s' := Do(j, s, Member(p, TimeOut));
  }

  lemma RefuseOne(j: Job, b: Behaviour, s: State, p: nat) returns (c: Behaviour, s': State)
    requires Reaches(j, b, s) && Shape(j, s) && p < |s.members| && s.members[p].Waiting? && s.members[p].nextTick <= s.now
    ensures Reaches(j, c, s') && GoesOn(b, c)
    ensures MembersMoved(s, s', p, p + 1) && s'.members[p].Failing?
  {
    hide Reaches, Enabled, Do, Shape;
    InShape(j, b, s);
    assert j.targets[p] in s.results;
    DoReport(j, s, j.targets[p], DeploymentState.Failed);
    c := Take(j, b, s, Around(Report(j.targets[p], DeploymentState.Failed, "")));
    var s1 := Do(j, s, Around(Report(j.targets[p], DeploymentState.Failed, "")));
    InShape(j, c, s1);
    DoPoll(j, s1, p);
    c := Take(j, c, s1, Member(p, Poll));
    s' := Do(j, s1, Member(p, Poll));
  }

  /** Whatever a started member is doing, it returns without delay once it is ready, and fails if it can. */
  lemma ReturnOne(j: Job, b: Behaviour, s: State, p: nat) returns (c: Behaviour, s': State)
    requires Reaches(j, b, s) && Shape(j, s) && p < |s.members| && !s.members[p].Idle? && !s.members[p].Notified?
    requires ReadyAt(j, s, s.members[p]) <= s.now
    ensures Reaches(j, c, s') && GoesOn(b, c)
    ensures MembersMoved(s, s', p, p + 1) && s'.members[p] == Returned(Succeeds(s.members[p]))
  {
    hide Reaches, Shape;
    match s.members[p]
    case Spawned(_) => c, s' := FailUnsubscribed(j, b, s, p);
    case Checking(_) => c, s' := FailUnsubscribed(j, b, s, p);
    case Notifying(_) => c, s' := FailUnsent(j, b, s, p);
    case Waiting(_, _) => c, s' := FailWaiting(j, b, s, p);
    case Marking => c, s' := MarkOne(j, b, s, p);
    case Failing(_, _) => c, s' := FailOne(j, b, s, p);
    case Returned(_) => c, s' := b, s;
  }

  lemma {:induction false} ReturnAll(j: Job, b: Behaviour, s: State, lo: nat, hi: nat) returns (c: Behaviour, s': State)
    requires Reaches(j, b, s) && Shape(j, s) && lo <= hi <= |s.members|
    requires forall p :: lo <= p < hi ==>
               !s.members[p].Idle? && !s.members[p].Notified? && ReadyAt(j, s, s.members[p]) <= s.now
    ensures Reaches(j, c, s') && GoesOn(b, c) && MembersMoved(s, s', lo, hi)
    ensures forall p :: lo <= p < hi ==> s'.members[p] == Returned(Succeeds(s.members[p]))
    decreases hi
  {
    hide Reaches, Shape;
    c, s' := b, s;
    if lo < hi {
      var s1;
      c, s1 := ReturnAll(j, b, s, lo, hi - 1);
      InShape(j, c, s1);
      assert s1.members[hi - 1] == s.members[hi - 1];
      c, s' := ReturnOne(j, c, s1, hi - 1);
    }
  }

  /** Members that have sent their event start to wait. */
  lemma {:induction false} StartWaiting(j: Job, b: Behaviour, s: State, lo: nat, hi: nat) returns (c: Behaviour, s': State)
    requires Reaches(j, b, s) && Shape(j, s) && lo <= hi <= |s.members|
    ensures Reaches(j, c, s') && GoesOn(b, c) && MembersMoved(s, s', lo, hi)
    ensures forall p :: lo <= p < hi ==>
              s'.members[p] == if s.members[p].Notified? then Waiting(s.now, s.now + POLL_INTERVAL) else s.members[p]
    decreases hi
  {
    hide Reaches, Shape, Do, Enabled;
    c, s' := b, s;
    if lo < hi {
      c, s' := StartWaiting(j, b, s, lo, hi - 1);
      InShape(j, c, s');
      if s.members[hi - 1].Notified? {
        assert s'.members[hi - 1] == s.members[hi - 1];
        DoArm(j, s', hi - 1);
        c := Take(j, c, s', Member(hi - 1, Step.Arm));
        s' := Do(j, s', Member(hi - 1, Step.Arm));
      }
    }
  }

  // ----- from every control state to a write

  /** Between the start and the end of stage `k`, the context live and the clock inside the deadline. */
  ghost predicate Under(j: Job, s: State, k: nat) {
    && Shape(j, s) && k < |j.plan| && s.ctl == InStage(k) && !s.ctxDone && s.now <= s.deadline
    && forall p :: StageAt(j, k).lo <= p < StageAt(j, k).hi ==> !s.members[p].Idle?
  }

  lemma FromFailedBatch(j: Job, b: Behaviour, s: State, k: nat, p: nat) returns (c: Behaviour)
    requires Reaches(j, b, s) && Under(j, s, k) && AllReturned(s.members, StageAt(j, k).lo, StageAt(j, k).hi)
    requires StageAt(j, k).lo <= p < StageAt(j, k).hi && s.members[p] == Returned(false)
    ensures WritesAfter(j, b, c)
  {
    hide Reaches;
    assert !AllOk(s.members, StageAt(j, k).lo, StageAt(j, k).hi);
    c := Take(j, b, s, Runner(Collect));
    var s1 := Do(j, s, Runner(Collect));
    if s1.ctl.RollingBack? {
      c := FromRollingBack(j, c, s1);
    } else {
      c := FromEnding(j, c, s1);
    }
  }

  /** A batch with a member that can fail: everyone waits until the deadline, and then it does. */
  lemma FailBatchInTime(j: Job, b: Behaviour, s: State, k: nat, p: nat) returns (c: Behaviour)
    requires Reaches(j, b, s) && Under(j, s, k)
    requires StageAt(j, k).lo <= p < StageAt(j, k).hi && !Succeeds(s.members[p])
    requires forall q :: StageAt(j, k).lo <= q < StageAt(j, k).hi ==> ReadyAt(j, s, s.members[q]) <= s.deadline
    ensures WritesAfter(j, b, c)
  {
    hide Reaches, Shape;
    InShape(j, b, s);
    var lo, hi := StageAt(j, k).lo, StageAt(j, k).hi;
    var s1, s2, s3;
    c, s1 := StartWaiting(j, b, s, lo, hi);
    c, s2 := WaitFor(j, c, s1, s.deadline - s.now);
    InShape(j, c, s2);
    c, s3 := ReturnAll(j, c, s2, lo, hi);
    InShape(j, c, s3);
    assert s3.members[p] == Returned(false);
    c := FromFailedBatch(j, c, s3, k, p);
  }

  /** A batch whose members all succeed is left at once. */
  lemma SettleBatch(j: Job, b: Behaviour, s: State, k: nat) returns (c: Behaviour, s': State)
    requires Reaches(j, b, s) && Under(j, s, k)
    requires forall p :: StageAt(j, k).lo <= p < StageAt(j, k).hi ==> Succeeds(s.members[p])
    ensures Reaches(j, c, s') && GoesOn(b, c) && Shape(j, s') && s'.ctl == Settled(k)
    ensures s'.now == s.now && s'.deadline == s.deadline && s'.ctxDone == s.ctxDone
  {
    hide Reaches, Shape;
    InShape(j, b, s);
    var s1;
    c, s1 := ReturnAll(j, b, s, StageAt(j, k).lo, StageAt(j, k).hi);
    InShape(j, c, s1);
    c, s' := CollectAll(j, c, s1, k);
    InShape(j, c, s');
  }

  lemma {:induction false} FromInStage(j: Job, b: Behaviour, s: State, k: nat) returns (c: Behaviour)
    requires Reaches(j, b, s) && Under(j, s, k) && NoIdlePause(j) && CanStillWrite(j, s)
    ensures WritesAfter(j, b, c)
    decreases |j.plan| - k, 3
  {
    hide Reaches;
    if p :| StageAt(j, k).lo <= p < StageAt(j, k).hi && !Succeeds(s.members[p]) {
      c := FailBatchInTime(j, b, s, k, p);
    } else {
      var s1;
      c, s1 := SettleBatch(j, b, s, k);
      c := FromSettled(j, c, s1, k);
    }
  }

  lemma {:induction false} FromSettled(j: Job, b: Behaviour, s: State, k: nat) returns (c: Behaviour)
    requires Reaches(j, b, s) && Shape(j, s) && k < |j.plan| && s.ctl == Settled(k)
    requires !s.ctxDone && s.now <= s.deadline && LeftInTime(j, s, k) && NoIdlePause(j)
    ensures WritesAfter(j, b, c)
    decreases |j.plan| - k, 2
  {
    var s1;
    c, s1 := Leave(j, b, s, k);
    InShape(j, c, s1);
    if StageAt(j, k).writesProgress {
    } else if StageAt(j, k).pause.Some? {
      c := FromPaused(j, c, s1, k);
    } else {
      c := FromStage(j, c, s1, k + 1);
    }
  }

  lemma {:induction false} FromPaused(j: Job, b: Behaviour, s: State, k: nat) returns (c: Behaviour)
    requires Reaches(j, b, s) && Shape(j, s) && k < |j.plan| && s.ctl.Paused? && s.ctl.k == k
    requires !s.ctxDone && s.now <= s.deadline && NoIdlePause(j)
    requires s.ctl.since + StageAt(j, k).pause.value <= s.deadline
    ensures WritesAfter(j, b, c)
    decreases |j.plan| - k, 1
  {
    hide Reaches;
    var s1;
    c, s1 := WaitFor(j, b, s, s.deadline - s.now);
    InShape(j, c, s1);
    c, s1 := Resume(j, c, s1, k, s.ctl.since);
    InShape(j, c, s1);
    if s1.ctl.HealthCheck? {
      c := FromHealth(j, c, s1, k);
    } else {
      c := FromStage(j, c, s1, k + 1);
    }
  }

  lemma {:induction false} FromHealth(j: Job, b: Behaviour, s: State, k: nat) returns (c: Behaviour)
    requires Reaches(j, b, s) && Shape(j, s) && k < |j.plan| && s.ctl == HealthCheck(k)
    requires !s.ctxDone && s.now <= s.deadline && NoIdlePause(j)
    ensures WritesAfter(j, b, c)
    decreases |j.plan| - k, 0
  {
    hide Reaches;
    c := Take(j, b, s, Runner(CheckHealth));
    var s1 := Do(j, s, Runner(CheckHealth));
    if s1.ctl.RollingBack? {
      c := FromRollingBack(j, c, s1);
    } else {
      c := FromStage(j, c, s1, k + 1);
    }
  }

  /** At the head of a batch: it begins, and its members are not connected; or it has none. */
  lemma {:induction false} FromStage(j: Job, b: Behaviour, s: State, k: nat) returns (c: Behaviour)
    requires Reaches(j, b, s) && Shape(j, s) && k <= |j.plan| && s.ctl == AtStage(k)
    requires !s.ctxDone && s.now <= s.deadline && NoIdlePause(j)
    ensures WritesAfter(j, b, c)
    decreases |j.plan| - k, 4
  {
    hide Reaches;
    DoRunner(j, s, Begin);
    c := Take(j, b, s, Runner(Begin));
    var s1 := Do(j, s, Runner(Begin));
    if k == |j.plan| {
      c := FromEnding(j, c, s1);
    } else {
      FreshBatch(j, s, s1, k);
      c := FromInStage(j, c, s1, k);
    }
  }

  lemma FreshBatch(j: Job, s: State, s1: State, k: nat)
    requires Shape(j, s) && k < |j.plan| && s.ctl == AtStage(k) && !s.ctxDone && s.now <= s.deadline && NoIdlePause(j)
    requires s1 == DoBegin(j, s)
    ensures Under(j, s1, k) && CanStillWrite(j, s1)
  {
    var lo, hi := StageAt(j, k).lo, StageAt(j, k).hi;
    assert forall p :: lo <= p < hi ==> s1.members[p] == Spawned(k);
    if lo < hi {
      assert !Succeeds(s1.members[lo]);
    }
  }

  /** From any state of a run in which the condition holds. */
  lemma WriteIsReached(j: Job, b: Behaviour, s: State) returns (c: Behaviour)
    requires Reaches(j, b, s) && Shape(j, s) && Layout(j, s) && Deciding(s) && NoIdlePause(j)
    requires CanStillWrite(j, s) && s.now <= s.deadline
    ensures WritesAfter(j, b, c)
  {
    match s.ctl
    case Entering => c := Take(j, b, s, Runner(Start(true)));
    case AtStage(k) => c := FromStage(j, b, s, k);
    case InStage(k) => c := FromInStage(j, b, s, k);
    case Settled(k) => c := FromSettled(j, b, s, k);
    case Paused(k, _) => c := FromPaused(j, b, s, k);
    case HealthCheck(k) => c := FromHealth(j, b, s, k);
    case RollingBack(_) => c := FromRollingBack(j, b, s);
    case LookingUp(_, _) => c := FromRollingBack(j, b, s);
    case Reverting(_, _) => c := FromReverting(j, b, s);
    case Ending(_) => c := FromEnding(j, b, s);
    case Writing(_) => c := WriteFinal(j, b, s);
  }

  // ----- the exact condition

  /** `c` has the same first `n` steps as `b`, and a state after them whose row is not cancelled. */
  ghost predicate Overwrites(j: Job, b: Behaviour, n: nat, c: Behaviour, m: nat)
    requires n < |b.states| == |b.acts| + 1
  {
    && IsRun(j, c) && n <= m < |c.states|
    && b.states[..n + 1] <= c.states && b.acts[..n] <= c.acts && !c.states[m].row.RowCancelled?
  }

  lemma Prefix(j: Job, b: Behaviour, n: nat) returns (a: Behaviour)
    requires IsRun(j, b) && n < |b.states|
    ensures Shape(j, b.states[n]) && Reaches(j, a, b.states[n])
    ensures a == Behaviour(b.states[..n + 1], b.acts[..n])
  {
    SafeRun(j, b, n);
    a := Behaviour(b.states[..n + 1], b.acts[..n]);
    forall i {:trigger a.acts[i]} | 0 <= i < n ensures Takes(j, a.states[i], a.acts[i], a.states[i + 1]) {
      assert Takes(j, b.states[i], b.acts[i], b.states[i + 1]);
    }
  }

  /** A cancelled row can be lost, at any later point of the run, if and only if the context is live and
      the run can still reach a write before its deadline. */
  lemma CancelLostIff(j: Job, b: Behaviour, n: nat)
    requires IsRun(j, b) && n < |b.states| && b.states[n].row.RowCancelled? && NoIdlePause(j)
    ensures Shape(j, b.states[n])
    ensures (exists c, m :: Overwrites(j, b, n, c, m)) <==> CanStillWrite(j, b.states[n])
  {
    SafeRun(j, b, n);
    if CanStillWrite(j, b.states[n]) {
      var a := Prefix(j, b, n);
      var c := WriteIsReached(j, a, b.states[n]);
      assert Overwrites(j, b, n, c, |c.states| - 1);
    } else {
      forall c, m | Overwrites(j, b, n, c, m) ensures false {
        assert c.states[n] == b.states[n];
        StuckForever(j, c, n, m);
      }
    }
  }

  // ----- completed rows

  /** A row that a run has completed belongs to a run that is over. */
  lemma {:induction false} CompletedAtExit(j: Job, b: Behaviour, n: nat)
    requires IsRun(j, b) && n < |b.states| && !b.states[0].row.RowCompleted? && b.states[n].row.RowCompleted?
    ensures b.states[n].ctl.Exited?
  {
    assert Takes(j, b.states[n - 1], b.acts[n - 1], b.states[n]);
    SafeRun(j, b, n - 1);
    if b.states[n - 1].row.RowCompleted? {
      CompletedAtExit(j, b, n - 1);
      ExitedIsFinal(j, b, n - 1);
    } else {
      match b.acts[n - 1]
      case Around(o) =>
      case Member(p, step) =>
      case Runner(move) => CompletingMove(j, b.states[n - 1], move);
    }
  }

  lemma CompletingMove(j: Job, s: State, move: Move)
    requires Shape(j, s) && MoveEnabled(j, s, move) && !s.row.RowCompleted? && DoMove(j, s, move).row.RowCompleted?
    ensures DoMove(j, s, move).ctl.Exited?
  {
  }

  /** A completed row of a run that is over, with no client about to cancel it. */
  ghost predicate SafelyCompleted(s: State) {
    s.row.RowCompleted? && s.ctl.Exited? && s.pendingCancels == 0
  }

  lemma {:induction false} SafelyCompletedForever(j: Job, b: Behaviour, n: nat, m: nat)
    requires IsRun(j, b) && n <= m < |b.states| && SafelyCompleted(b.states[n])
    ensures SafelyCompleted(b.states[m])
  {
    if n < m {
      SafelyCompletedForever(j, b, n, m - 1);
      ExitedIsFinal(j, b, m - 1);
      assert Takes(j, b.states[m - 1], b.acts[m - 1], b.states[m]);
    }
  }

  /** `c` has the same first `n` steps as `b`, and a state after them whose row is not completed. */
  ghost predicate Uncompletes(j: Job, b: Behaviour, n: nat, c: Behaviour, m: nat)
    requires n < |b.states| == |b.acts| + 1
  {
    && IsRun(j, c) && n <= m < |c.states|
    && b.states[..n + 1] <= c.states && b.acts[..n] <= c.acts && !c.states[m].row.RowCompleted?
  }

  /** A row that a run has completed can be lost if and only if a client read it while it was active and
      has yet to write. */
  lemma CompletedLostIff(j: Job, b: Behaviour, n: nat)
    requires IsRun(j, b) && n < |b.states| && !b.states[0].row.RowCompleted? && b.states[n].row.RowCompleted?
    ensures (exists c, m :: Uncompletes(j, b, n, c, m)) <==> b.states[n].pendingCancels > 0
  {
    var s := b.states[n];
    if s.pendingCancels > 0 {
      var a := Prefix(j, b, n);
      var c := Take(j, a, s, Around(CancelWrite(true)));
      assert Uncompletes(j, b, n, c, |c.states| - 1);
    } else {
      CompletedAtExit(j, b, n);
      forall c, m | Uncompletes(j, b, n, c, m) ensures false {
        assert c.states[n] == s;
        SafelyCompletedForever(j, c, n, m);
      }
    }
  }
}
