/** How long a completed run must have taken. */
module RunnerTiming {
  import opened HubTypes
  import opened DeploymentPlan
  import opened RunnerModel
  import opened RunnerSafety

  /** The first poll of a stage's members comes one interval after their timers start. */
  function PollTime(s: Stage): nat {
    if s.lo < s.hi then POLL_INTERVAL else 0
  }

  function StageTime(s: Stage): nat {
    PollTime(s) + if s.pause.Some? then s.pause.value else 0
  }

  /** The least time the first `k` stages take when they all succeed. */
  function Elapsed(plan: seq<Stage>, k: nat): nat
    requires k <= |plan|
  {
    if k == 0 then 0 else Elapsed(plan, k - 1) + StageTime(plan[k - 1])
  }

  /** The instant `Run` was entered. */
  function Entered(j: Job, s: State): int {
    s.deadline - j.timing.timeout
  }

  /** `t` comes after the first `k` stages. */
  ghost predicate Since(j: Job, s: State, k: nat, t: int) {
    k <= |j.plan| && t >= Entered(j, s) + Elapsed(j.plan, k)
  }

  /** `t` comes after the first `k` stages and the polls of stage `k`. */
  ghost predicate SincePolls(j: Job, s: State, k: nat, t: int) {
    k < |j.plan| && t >= Entered(j, s) + Elapsed(j.plan, k) + PollTime(j.plan[k])
  }

  ghost predicate MemberClock(j: Job, s: State, k: nat, m: Routine) {
    && (m.Waiting? ==> Since(j, s, k, m.since) && m.nextTick >= m.since + POLL_INTERVAL)
    && (m.Marking? || m == Returned(true) ==> Since(j, s, k, s.now - POLL_INTERVAL))
  }

  ghost predicate StageClock(j: Job, s: State)
    requires ControlShape(j.plan, s.ctl)
  {
    match s.ctl
    case AtStage(k) => Since(j, s, k, s.now)
    case InStage(k) =>
      && Since(j, s, k, s.now)
      && forall p :: s.settled <= p < s.spawned && p < |s.members| ==> MemberClock(j, s, k, s.members[p])
    case Settled(k) => SincePolls(j, s, k, s.now)
    case Paused(k, since) => SincePolls(j, s, k, since)
    case HealthCheck(k) => Since(j, s, k + 1, s.now)
    case Ending(failed) => failed || Since(j, s, |j.plan|, s.now)
    case Writing(status) => status.RowCompleted? ==> Since(j, s, |j.plan|, s.now)
    case _ => true
  }

  /** The clock, and what it proves once the row is completed. */
  ghost predicate Clock(j: Job, before: DeploymentStatus, s: State)
    requires ControlShape(j.plan, s.ctl)
  {
    && s.now >= Entered(j, s)
    && (!s.ctxDone ==> s.now <= s.deadline)
    && StageClock(j, s)
    && (s.row.RowCompleted? ==>
          before.RowCompleted? || (Since(j, s, |j.plan|, s.now) && Elapsed(j.plan, |j.plan|) <= j.timing.timeout))
  }

  lemma ClockOutside(j: Job, before: DeploymentStatus, s: State, o: Outside)
    requires Shape(j, s) && Clock(j, before, s) && OutsideEnabled(s, o)
    ensures Clock(j, before, DoOutside(s, o))
  {
    var s' := DoOutside(s, o);
    assert s'.now >= s.now;
    if s.ctl.InStage? {
      forall p | s'.settled <= p < s'.spawned && p < |s'.members|
        ensures MemberClock(j, s', s.ctl.k, s'.members[p])
      {
        assert MemberClock(j, s, s.ctl.k, s.members[p]);
      }
    }
  }

  /** A poll comes no sooner than one interval after the timers were armed. */
  lemma StepClock(j: Job, s: State, k: nat, p: nat, step: Step)
    requires Shape(j, s) && p < |s.members| && StepEnabled(j, s, p, step)
    requires k < |j.plan| && Since(j, s, k, s.now) && MemberClock(j, s, k, s.members[p])
    ensures MemberClock(j, s, k, DoStep(j, s, p, step).members[p])
    ensures var s' := DoStep(j, s, p, step);
            s'.now == s.now && s'.deadline == s.deadline && s'.ctxDone == s.ctxDone && s'.row == s.row
  {
  }

  lemma ClockStep(j: Job, before: DeploymentStatus, s: State, p: nat, step: Step)
    requires Shape(j, s) && Layout(j, s) && Clock(j, before, s)
    requires p < |s.members| && StepEnabled(j, s, p, step)
    ensures Clock(j, before, DoStep(j, s, p, step))
  {
    LayoutStep(j, s, p, step);
    StepMovesOne(j, s, p, step);
    var k := s.ctl.k;
    assert MemberClock(j, s, k, s.members[p]);
    StepClock(j, s, k, p, step);
    var s' := DoStep(j, s, p, step);
    forall q | s'.settled <= q < s'.spawned && q < |s'.members|
      ensures MemberClock(j, s', k, s'.members[q])
    {
      assert MemberClock(j, s, k, s.members[q]);
    }
  }

  lemma ClockCollect(j: Job, s: State)
    requires Shape(j, s) && Layout(j, s) && StageClock(j, s)
    requires MoveEnabled(j, s, Collect)
    ensures StageClock(j, DoCollect(j, s))
  {
    var k := s.ctl.k;
    var stage := StageAt(j, k);
    if AllOk(s.members, stage.lo, stage.hi) && stage.lo < stage.hi {
      assert MemberClock(j, s, k, s.members[stage.lo]);
    }
  }

  lemma ClockBegin(j: Job, s: State)
    requires Shape(j, s) && Layout(j, s) && StageClock(j, s) && s.ctl.AtStage?
    ensures StageClock(j, DoBegin(j, s))
  {
  }

  lemma ClockPause(j: Job, s: State, move: Move)
    requires Shape(j, s) && StageClock(j, s)
    requires MoveEnabled(j, s, move)
    requires move.Advance? || move.ResumeDone? || move.ResumeTimer?
    ensures StageClock(j, DoMove(j, s, move))
  {
    var k := s.ctl.k;
    assert Elapsed(j.plan, k + 1) == Elapsed(j.plan, k) + StageTime(j.plan[k]);
  }

  lemma ClockRest(j: Job, s: State, move: Move)
    requires Shape(j, s) && StageClock(j, s)
    requires MoveEnabled(j, s, move)
    requires move.Start? || move.CheckHealth? || move.Snapshot? || move.Lookup? || move.Revert? || move.Judge?
    requires s.now >= Entered(j, s)
    ensures StageClock(j, DoMove(j, s, move))
  {
  }

  lemma MoveKeepsTime(j: Job, s: State, move: Move)
    requires Shape(j, s) && MoveEnabled(j, s, move)
    ensures var s' := DoMove(j, s, move);
            s'.now == s.now && s'.deadline == s.deadline && s'.ctxDone == s.ctxDone
  {
    hide DoMove;
  }

  /** The run writes the row only while its context is live, and writes a completed status
      only as its last step. */
  lemma MoveWrites(j: Job, s: State, move: Move)
    requires Shape(j, s) && MoveEnabled(j, s, move)
    ensures s.ctxDone ==> DoMove(j, s, move).row == s.row
    ensures DoMove(j, s, move).row.RowCompleted? ==>
              s.row.RowCompleted? || (s.ctl == Writing(RowCompleted) && !s.ctxDone)
  {
  }

  lemma ClockStage(j: Job, s: State, move: Move)
    requires Shape(j, s) && Layout(j, s) && StageClock(j, s) && MoveEnabled(j, s, move)
    requires s.now >= Entered(j, s)
    ensures StageClock(j, DoMove(j, s, move))
  {
    match move
    case Begin => ClockBegin(j, s);
    case Collect => ClockCollect(j, s);
    case Advance(_) => ClockPause(j, s, move);
    case ResumeDone => ClockPause(j, s, move);
    case ResumeTimer => ClockPause(j, s, move);
    case Conclude(_) =>
    case _ => ClockRest(j, s, move);
  }

  lemma ClockMove(j: Job, before: DeploymentStatus, s: State, move: Move)
    requires Shape(j, s) && Layout(j, s) && Clock(j, before, s) && MoveEnabled(j, s, move)
    ensures Clock(j, before, DoMove(j, s, move))
  {
    MoveKeepsTime(j, s, move);
    MoveWrites(j, s, move);
    ClockStage(j, s, move);
  }

  lemma ClockAction(j: Job, before: DeploymentStatus, s: State, a: Action)
    requires Shape(j, s) && Layout(j, s) && Clock(j, before, s) && Enabled(j, s, a)
    ensures Clock(j, before, Do(j, s, a))
  {
    match a {
      case Around(o) => ClockOutside(j, before, s, o);
      case Member(p, step) => ClockStep(j, before, s, p, step);
      case Runner(move) => ClockMove(j, before, s, move);
    }
    ClockIgnoresLog(j, before, Effect(j, s, a), s.log + Events(j, s, a));
  }

  lemma ClockIgnoresLog(j: Job, before: DeploymentStatus, s: State, log: seq<Event>)
    requires ControlShape(j.plan, s.ctl) && Clock(j, before, s)
    ensures Clock(j, before, s.(log := log))
  {
    var s' := s.(log := log);
    if s.ctl.InStage? {
      forall p | s'.settled <= p < s'.spawned && p < |s'.members|
        ensures MemberClock(j, s', s.ctl.k, s'.members[p])
      {
        assert MemberClock(j, s, s.ctl.k, s.members[p]);
      }
    }
  }

  // ----- the plans of the hub

  /** From stage `from` on every stage takes `poll`, and all but the last pause for `delay`. */
  ghost predicate Uniform(plan: seq<Stage>, from: nat, poll: nat, delay: nat) {
    forall i :: from <= i < |plan| ==> StageTime(plan[i]) == poll + if i + 1 < |plan| then delay else 0
  }

  /** Number of pauses among `k` stages that end at stage `at` of `n`. */
  function Pauses(k: nat, at: nat, n: nat): nat {
    if at < n || k == 0 then k else k - 1
  }

  lemma MulSuccessor(k: nat, x: nat)
    ensures k * x + x == (k + 1) * x
  {
  }

  lemma {:induction false} UniformElapsed(plan: seq<Stage>, from: nat, k: nat, poll: nat, delay: nat)
    requires Uniform(plan, from, poll, delay) && from + k <= |plan|
    ensures Elapsed(plan, from + k) == Elapsed(plan, from) + k * poll + Pauses(k, from + k, |plan|) * delay
  {
    if k > 0 {
      UniformElapsed(plan, from, k - 1, poll, delay);
      MulSuccessor(k - 1, poll);
      MulSuccessor(k - 1, delay);
    }
  }

  lemma RollingStageTime(c: Config, i: nat)
    requires WellTyped(c) && |c.targets| > 0 && i < |Plan(c)|
    requires c.strategy.Rolling? || c.strategy.Unrecognised? || (c.strategy.Canary? && |c.targets| >= 2 && i > 0)
    ensures StageTime(Plan(c)[i]) == POLL_INTERVAL + if i + 1 < |Plan(c)| then c.timing.batchDelay else 0
  {
    PlanTile(c, i);
    if c.strategy.Canary? {
      var from := CanarySize(|c.targets|);
      assert Plan(c)[i] == RollingStages(c, from, 1, false)[i - 1];
      RollingStageBounds(c, from, 1, false, i - 1);
    } else {
      RollingStageBounds(c, 0, 0, true, i);
    }
  }

  /** A rolling plan of T batches takes at least T polls and T - 1 batch delays. */
  lemma RollingElapsed(c: Config)
    requires WellTyped(c) && |c.targets| > 0
    requires c.strategy.Rolling? || c.strategy.Unrecognised?
    ensures var t := |Plan(c)|;
            Elapsed(Plan(c), t) == t * POLL_INTERVAL + Pauses(t, t, t) * c.timing.batchDelay
  {
    forall i | 0 <= i < |Plan(c)|
      ensures StageTime(Plan(c)[i]) == POLL_INTERVAL + if i + 1 < |Plan(c)| then c.timing.batchDelay else 0
    {
      RollingStageTime(c, i);
    }
    UniformElapsed(Plan(c), 0, |Plan(c)|, POLL_INTERVAL, c.timing.batchDelay);
  }

  /** A canary plan also takes the canary's poll and validation period. */
  lemma CanaryElapsed(c: Config)
    requires WellTyped(c) && c.strategy.Canary? && |c.targets| >= 2
    ensures var t := |Plan(c)| - 1;
            Elapsed(Plan(c), t + 1)
              == POLL_INTERVAL + c.timing.canaryDelay + t * POLL_INTERVAL + Pauses(t, t, t) * c.timing.batchDelay
  {
    forall i | 1 <= i < |Plan(c)|
      ensures StageTime(Plan(c)[i]) == POLL_INTERVAL + if i + 1 < |Plan(c)| then c.timing.batchDelay else 0
    {
      RollingStageTime(c, i);
    }
    UniformElapsed(Plan(c), 1, |Plan(c)| - 1, POLL_INTERVAL, c.timing.batchDelay);
    CanaryStageTime(c);
  }

  lemma CanaryStageTime(c: Config)
    requires WellTyped(c) && c.strategy.Canary? && |c.targets| >= 2
    ensures |Plan(c)| >= 1 && Elapsed(Plan(c), 1) == POLL_INTERVAL + c.timing.canaryDelay
  {
    assert Elapsed(Plan(c), 1) == Elapsed(Plan(c), 0) + StageTime(Plan(c)[0]);
  }
}
