/** Safety of every run of a deployment, under every interleaving. */
module RunnerSafety {
  import opened HubTypes
  import opened DeploymentPlan
  import opened RunnerModel

  // ----- positions and control

  /** No goroutine is running. */
  ghost predicate Quiet(s: State) {
    forall p :: 0 <= p < s.spawned && p < |s.members| ==> s.members[p].Returned?
  }

  /** Settled positions have succeeded, spawned ones are under way, later ones untouched. */
  ghost predicate Positions(s: State) {
    && s.settled <= s.spawned <= |s.members|
    && (forall p :: 0 <= p < s.settled ==> s.members[p] == Returned(true))
    && (forall p :: s.settled <= p < s.spawned ==> !s.members[p].Idle?)
    && (forall p :: s.spawned <= p < |s.members| ==> s.members[p].Idle?)
  }

  /** The goroutine has not sent its event yet; it carries the number of its stage. */
  predicate Unsent(m: Routine) {
    m.Spawned? || m.Checking? || m.Notifying?
  }

  ghost predicate StageTagged(s: State, k: nat) {
    forall p :: 0 <= p < |s.members| && Unsent(s.members[p]) ==> s.members[p].k == k
  }

  /** A stage that failed is the last one that was started. */
  ghost predicate FailureIsLast(j: Job, s: State) {
    s.failedStage.Some? ==>
      var k := s.failedStage.value;
      k < |j.plan| && s.spawned == StageAt(j, k).hi && s.settled >= StageAt(j, k).lo
  }

  /** Every stage before `k` has succeeded and nothing else was started. */
  ghost predicate Clear(s: State, frontier: nat) {
    s.settled == s.spawned == frontier && s.failedStage == None
  }

  /** The stages behind the control state have succeeded, the current one is under way. */
  ghost predicate Progress(j: Job, s: State)
    requires ControlShape(j.plan, s.ctl)
  {
    match s.ctl
    case Entering => Clear(s, 0)
    case AtStage(k) => Clear(s, Frontier(j.plan, k))
    case InStage(k) =>
      s.settled == StageAt(j, k).lo && s.spawned == StageAt(j, k).hi && s.failedStage == None && StageTagged(s, k)
    case Settled(k) => Clear(s, StageAt(j, k).hi)
    case Paused(k, _) => Clear(s, StageAt(j, k).hi)
    case HealthCheck(k) => Clear(s, StageAt(j, k).hi)
    case RollingBack(k) => s.failedStage == Some(k) && FailureIsLast(j, s)
    case LookingUp(k, _) => s.failedStage == Some(k) && FailureIsLast(j, s)
    case Reverting(k, _) => s.failedStage == Some(k) && FailureIsLast(j, s)
    case Ending(failed) => FailureIsLast(j, s) && (!failed ==> Clear(s, Frontier(j.plan, |j.plan|)))
    case Writing(status) =>
      FailureIsLast(j, s) && (status.RowCompleted? ==> s.settled == Frontier(j.plan, |j.plan|))
    case Exited => FailureIsLast(j, s)
  }

  ghost predicate Layout(j: Job, s: State)
    requires ControlShape(j.plan, s.ctl)
  {
    Positions(s) && (!s.ctl.InStage? ==> Quiet(s)) && Progress(j, s)
  }

  /** What every goroutine step does to the layout: one member moves, forward. */
  ghost predicate MovesOne(s: State, p: nat, s': State) {
    && p < |s.members| && |s'.members| == |s.members|
    && s'.members == s.members[p := s'.members[p]]
    && !s.members[p].Idle? && !s.members[p].Returned? && !s'.members[p].Idle?
    && (Unsent(s'.members[p]) ==> Unsent(s.members[p]) && s'.members[p].k == s.members[p].k)
    && s'.ctl == s.ctl && s'.settled == s.settled && s'.spawned == s.spawned && s'.failedStage == s.failedStage
  }

  /** Moves of the run that leave goroutines and positions alone. */
  ghost predicate MovesNone(s: State, s': State) {
    s'.members == s.members && s'.settled == s.settled && s'.spawned == s.spawned
  }

  lemma StepMovesOne(j: Job, s: State, p: nat, step: Step)
    requires Shape(j, s) && p < |s.members| && StepEnabled(j, s, p, step)
    ensures MovesOne(s, p, DoStep(j, s, p, step))
  {
  }

  lemma LayoutAfterOne(j: Job, s: State, p: nat, s': State)
    requires ControlShape(j.plan, s.ctl) && ControlShape(j.plan, s'.ctl)
    requires Layout(j, s) && MovesOne(s, p, s')
    ensures s.ctl.InStage? && s.settled <= p < s.spawned
    ensures Layout(j, s')
  {
    assert s.ctl.InStage?;
    assert s.settled <= p < s.spawned;
    assert StageTagged(s', s.ctl.k);
  }

  lemma LayoutOutside(j: Job, s: State, o: Outside)
    requires Shape(j, s) && Layout(j, s) && OutsideEnabled(s, o)
    ensures Layout(j, DoOutside(s, o))
  {
    var s' := DoOutside(s, o);
    assert MovesNone(s, s') && s'.ctl == s.ctl && s'.failedStage == s.failedStage;
  }

  lemma LayoutStep(j: Job, s: State, p: nat, step: Step)
    requires Shape(j, s) && Layout(j, s) && p < |s.members| && StepEnabled(j, s, p, step)
    ensures s.ctl.InStage? && s.settled <= p < s.spawned
    ensures Layout(j, DoStep(j, s, p, step))
  {
    StepMovesOne(j, s, p, step);
    LayoutAfterOne(j, s, p, DoStep(j, s, p, step));
  }

  lemma LayoutBegin(j: Job, s: State)
    requires Shape(j, s) && Layout(j, s) && s.ctl.AtStage?
    ensures Layout(j, DoBegin(j, s))
  {
    var k := s.ctl.k;
    if k < |j.plan| {
      assert StageAt(j, k).lo == Frontier(j.plan, k);
      var s' := DoBegin(j, s);
      if s'.ctl.InStage? {
        assert Positions(s');
        assert StageTagged(s', k);
      }
    }
  }

  lemma LayoutCollect(j: Job, s: State)
    requires Shape(j, s) && Layout(j, s) && MoveEnabled(j, s, Collect)
    ensures Layout(j, DoCollect(j, s))
  {
    var s' := DoCollect(j, s);
    assert Quiet(s');
    assert Positions(s');
  }

  lemma LayoutPause(j: Job, s: State, move: Move)
    requires Shape(j, s) && Layout(j, s) && MoveEnabled(j, s, move)
    requires move.Advance? || move.ResumeDone? || move.ResumeTimer?
    ensures Layout(j, DoMove(j, s, move))
  {
    assert MovesNone(s, DoMove(j, s, move));
  }

  lemma LayoutHealth(j: Job, s: State)
    requires Shape(j, s) && Layout(j, s) && s.ctl.HealthCheck?
    ensures Layout(j, DoMove(j, s, CheckHealth))
  {
    assert MovesNone(s, DoMove(j, s, CheckHealth));
  }

  lemma LayoutRollback(j: Job, s: State, move: Move)
    requires Shape(j, s) && Layout(j, s) && MoveEnabled(j, s, move)
    requires move.Snapshot? || move.Lookup? || move.Revert?
    ensures Layout(j, DoMove(j, s, move))
  {
    assert FailureIsLast(j, s);
    assert MovesNone(s, DoMove(j, s, move));
  }

  lemma LayoutEnds(j: Job, s: State, move: Move)
    requires Shape(j, s) && Layout(j, s) && MoveEnabled(j, s, move)
    requires move.Start? || move.Judge? || move.Conclude?
    ensures Layout(j, DoMove(j, s, move))
  {
    assert MovesNone(s, DoMove(j, s, move));
  }

  lemma LayoutMove(j: Job, s: State, move: Move)
    requires Shape(j, s) && Layout(j, s) && MoveEnabled(j, s, move)
    ensures Layout(j, DoMove(j, s, move))
  {
    match move
    case Begin => LayoutBegin(j, s);
    case Collect => LayoutCollect(j, s);
    case Advance(_) => LayoutPause(j, s, move);
    case ResumeDone => LayoutPause(j, s, move);
    case ResumeTimer => LayoutPause(j, s, move);
    case CheckHealth => LayoutHealth(j, s);
    case Snapshot(_) => LayoutRollback(j, s, move);
    case Lookup(_) => LayoutRollback(j, s, move);
    case Revert(_) => LayoutRollback(j, s, move);
    case _ => LayoutEnds(j, s, move);
  }

  lemma LayoutAction(j: Job, s: State, a: Action)
    requires Shape(j, s) && Layout(j, s) && Enabled(j, s, a)
    ensures Layout(j, Do(j, s, a))
  {
    LayoutEffect(j, s, a);
    var s' := Effect(j, s, a);
    assert MovesNone(s', Do(j, s, a)) && Layout(j, s');
  }

  lemma LayoutEffect(j: Job, s: State, a: Action)
    requires Shape(j, s) && Layout(j, s) && Enabled(j, s, a)
    ensures Layout(j, Effect(j, s, a))
  {
    match a
    case Around(o) => LayoutOutside(j, s, o);
    case Member(p, step) => LayoutStep(j, s, p, step);
    case Runner(move) => LayoutMove(j, s, move);
  }
}
