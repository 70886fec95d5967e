/** Rollback events and final statuses. */
module RunnerRollback {
  import opened HubTypes
  import opened DeploymentPlan
  import opened RunnerModel
  import opened RunnerSafety
  import opened RunnerHistory

  // ----- rollback

  ghost predicate NoDuplicates(ids: seq<Id>) {
    forall h, i :: 0 <= h < i < |ids| ==> ids[h] != ids[i]
  }

  ghost predicate RevertedIn(log: seq<Event>, id: Id) {
    exists i :: 0 <= i < |log| && log[i].Reverted? && log[i].id == id
  }

  /** A snapshot taken before index `i` contains `id`. */
  ghost predicate SnapshotHas(log: seq<Event>, i: int, id: Id) {
    exists h :: 0 <= h < i && h < |log| && log[h].Snapshotted? && id in log[h].ids
  }

  /** Entry `i`, if it is a rollback event, is justified by the snapshot before it. */
  ghost predicate RevertJustified(j: Job, s: State, i: nat)
    requires i < |s.log| && s.log[i].Reverted?
  {
    && s.log[i].version == j.version - 1 && j.version >= 2
    && s.failedStage.Some? && s.failedStage.value < |j.plan| && j.plan[s.failedStage.value].rollsBack
    && SnapshotHas(s.log, i, s.log[i].id)
  }

  ghost predicate RevertsJustified(j: Job, s: State) {
    && (forall i :: 0 <= i < |s.log| && s.log[i].Reverted? ==> RevertJustified(j, s, i))
    && (forall h, i :: 0 <= h < i < |s.log| && s.log[h].Reverted? && s.log[i].Reverted? ==> s.log[h].id != s.log[i].id)
    && (forall h, i :: 0 <= h < i < |s.log| ==> !(s.log[h].Snapshotted? && s.log[i].Snapshotted?))
  }

  /** What is left to revert. */
  ghost predicate Pending(j: Job, s: State, k: nat, todo: seq<Id>) {
    && j.version >= 2 && NoDuplicates(todo)
    && k < |j.plan| && j.plan[k].rollsBack
    && forall i :: 0 <= i < |todo| ==> SnapshotHas(s.log, |s.log|, todo[i]) && !RevertedIn(s.log, todo[i])
  }

  ghost predicate NoRollback(log: seq<Event>) {
    forall i :: 0 <= i < |log| ==> !log[i].Snapshotted? && !log[i].Reverted?
  }

  ghost predicate RollbackPhase(j: Job, s: State)
    requires ControlShape(j.plan, s.ctl)
  {
    match s.ctl
    case RollingBack(k) => NoRollback(s.log) && j.plan[k].rollsBack
    case LookingUp(k, todo) => Pending(j, s, k, todo)
    case Reverting(k, todo) => Pending(j, s, k, todo)
    case Ending(failed) => failed || NoRollback(s.log)
    case Writing(_) => true
    case Exited => true
    case _ => NoRollback(s.log)
  }

  /** Stages followed by a health check also roll back. */
  ghost predicate HealthRollsBack(j: Job) {
    forall k :: 0 <= k < |j.plan| && j.plan[k].checksHealth ==> j.plan[k].rollsBack
  }

  ghost predicate HealthPhase(j: Job, s: State)
    requires ControlShape(j.plan, s.ctl)
  {
    s.ctl.HealthCheck? ==> j.plan[s.ctl.k].checksHealth
  }

  ghost predicate Rollbacks(j: Job, s: State)
    requires ControlShape(j.plan, s.ctl)
  {
    RevertsJustified(j, s) && RollbackPhase(j, s) && HealthPhase(j, s)
  }

  /** A stage failure, once recorded, is never replaced. */
  lemma FailureStays(j: Job, s: State, a: Action)
    requires Shape(j, s) && Layout(j, s) && Enabled(j, s, a)
    ensures s.failedStage.Some? ==> Do(j, s, a).failedStage == s.failedStage
  {
    match a
    case Around(o) =>
    case Member(p, step) => StepMovesOne(j, s, p, step);
    case Runner(move) => if s.failedStage.Some? { assert !move.Collect? && !move.CheckHealth?; }
  }

  lemma JustifiedKept(j: Job, s: State, e: seq<Event>, s': State)
    requires RevertsJustified(j, s) && s'.log == s.log + e && |e| <= 1
    requires s.failedStage.Some? ==> s'.failedStage == s.failedStage
    requires |e| == 1 ==> !e[0].Reverted? && (e[0].Snapshotted? ==> NoRollback(s.log))
    ensures RevertsJustified(j, s')
  {
    forall i | 0 <= i < |s'.log| && s'.log[i].Reverted?
      ensures RevertJustified(j, s', i)
    {
      assert RevertJustified(j, s, i);
      var h :| 0 <= h < i && h < |s.log| && s.log[h].Snapshotted? && s.log[i].id in s.log[h].ids;
      assert s'.log[h] == s.log[h];
    }
  }

  lemma PendingKept(j: Job, s: State, k: nat, todo: seq<Id>, e: seq<Event>, s': State)
    requires Pending(j, s, k, todo) && s'.log == s.log + e
    requires forall i :: 0 <= i < |e| ==> !e[i].Reverted?
    ensures Pending(j, s', k, todo)
  {
    forall i | 0 <= i < |todo|
      ensures SnapshotHas(s'.log, |s'.log|, todo[i]) && !RevertedIn(s'.log, todo[i])
    {
      var h :| 0 <= h < |s.log| && s.log[h].Snapshotted? && todo[i] in s.log[h].ids;
      assert s'.log[h] == s.log[h];
    }
  }

  /** Actions that neither take a snapshot nor send a rollback event, and stay in phase. */
  lemma PhaseKept(j: Job, s: State, e: seq<Event>, s': State)
    requires ControlShape(j.plan, s.ctl) && RollbackPhase(j, s)
    requires s'.ctl == s.ctl && s'.log == s.log + e
    requires forall i :: 0 <= i < |e| ==> !e[i].Snapshotted? && !e[i].Reverted?
    ensures RollbackPhase(j, s')
  {
    match s.ctl
    case LookingUp(k, todo) => PendingKept(j, s, k, todo, e, s');
    case Reverting(k, todo) => PendingKept(j, s, k, todo, e, s');
    case _ =>
  }

  lemma RollbackSnapshot(j: Job, s: State, order: seq<Id>)
    requires Shape(j, s) && Layout(j, s) && Rollbacks(j, s)
    requires MoveEnabled(j, s, Snapshot(order))
    ensures Rollbacks(j, Do(j, s, Runner(Snapshot(order))))
  {
    var s' := Do(j, s, Runner(Snapshot(order)));
    var e := Snapshotted(CompletedIds(s.results));
    assert s'.log == s.log + [e] && s'.log[|s.log|] == e;
    JustifiedKept(j, s, [e], s');
    if s'.ctl.LookingUp? {
      forall i | 0 <= i < |order|
        ensures SnapshotHas(s'.log, |s'.log|, order[i])
      {
        assert order[i] in e.ids;
      }
    }
  }

  lemma RollbackRevert(j: Job, s: State, delivered: bool)
    requires Shape(j, s) && Layout(j, s) && Rollbacks(j, s)
    requires MoveEnabled(j, s, Revert(delivered))
    ensures Rollbacks(j, Do(j, s, Runner(Revert(delivered))))
  {
    var s' := Do(j, s, Runner(Revert(delivered)));
    var todo, k := s.ctl.todo, s.ctl.k;
    if delivered {
      var e := Reverted(todo[0], j.version - 1);
      assert s'.log == s.log + [e];
      RevertStep(j, s, k, todo, s');
    } else {
      assert s'.log == s.log;
      JustifiedKept(j, s, [], s');
      if todo != [] {
        assert forall i :: 0 <= i < |todo[1..]| ==> todo[1..][i] == todo[i + 1];
        assert Pending(j, s', k, todo[1..]);
      }
    }
  }

  lemma RevertStep(j: Job, s: State, k: nat, todo: seq<Id>, s': State)
    requires RevertsJustified(j, s) && Pending(j, s, k, todo) && todo != []
    requires s.failedStage == Some(k) && s'.failedStage == s.failedStage
    requires s'.log == s.log + [Reverted(todo[0], j.version - 1)]
    ensures RevertsJustified(j, s') && Pending(j, s', k, todo[1..])
  {
    var n := |s.log|;
    assert s'.log[n] == Reverted(todo[0], j.version - 1);
    forall i | 0 <= i < |s'.log| && s'.log[i].Reverted?
      ensures RevertJustified(j, s', i)
    {
      if i < n { assert RevertJustified(j, s, i); }
      var h :| 0 <= h < i && h < |s.log| && s.log[h].Snapshotted? && s'.log[i].id in s.log[h].ids;
      assert s'.log[h] == s.log[h];
    }
    assert forall h :: 0 <= h < n && s.log[h].Reverted? ==> s.log[h].id != todo[0] by {
      assert !RevertedIn(s.log, todo[0]);
    }
    forall i | 0 <= i < |todo[1..]|
      ensures SnapshotHas(s'.log, |s'.log|, todo[1..][i]) && !RevertedIn(s'.log, todo[1..][i])
    {
      assert todo[1..][i] == todo[i + 1];
      assert !RevertedIn(s.log, todo[i + 1]) && todo[i + 1] != todo[0];
      var h :| 0 <= h < |s.log| && s.log[h].Snapshotted? && todo[i + 1] in s.log[h].ids;
      assert s'.log[h] == s.log[h];
    }
  }

  /** Before any rollback there is nothing in the history to justify. */
  lemma PhaseBefore(j: Job, s: State)
    requires ControlShape(j.plan, s.ctl) && NoRollback(s.log)
    requires !s.ctl.LookingUp? && !s.ctl.Reverting?
    requires s.ctl.RollingBack? ==> j.plan[s.ctl.k].rollsBack
    ensures RollbackPhase(j, s)
  {
  }

  lemma RollbackBefore(j: Job, s: State, move: Move)
    requires Shape(j, s) && Rollbacks(j, s)
    requires MoveEnabled(j, s, move)
    requires move.Start? || move.Begin? || move.Advance? || move.ResumeDone? || move.ResumeTimer?
    ensures Do(j, s, Runner(move)).log == s.log && NoRollback(s.log)
    ensures RollbackPhase(j, Do(j, s, Runner(move))) && HealthPhase(j, Do(j, s, Runner(move)))
  {
    assert NoRollback(s.log);
    var s' := Do(j, s, Runner(move));
    assert s'.log == s.log;
    assert !s'.ctl.RollingBack? && !s'.ctl.LookingUp? && !s'.ctl.Reverting?;
    PhaseBefore(j, s');
  }

  lemma RollbackBegins(j: Job, s: State, move: Move)
    requires Shape(j, s) && Rollbacks(j, s) && HealthRollsBack(j)
    requires MoveEnabled(j, s, move)
    requires move.Collect? || move.CheckHealth?
    ensures Do(j, s, Runner(move)).log == s.log && NoRollback(s.log)
    ensures RollbackPhase(j, Do(j, s, Runner(move))) && HealthPhase(j, Do(j, s, Runner(move)))
  {
    assert NoRollback(s.log);
    PhaseBefore(j, Do(j, s, Runner(move)));
  }

  lemma RollbackAfter(j: Job, s: State, move: Move)
    requires Shape(j, s) && Rollbacks(j, s)
    requires MoveEnabled(j, s, move)
    requires move.Lookup? || move.Judge? || move.Conclude?
    ensures RollbackPhase(j, Do(j, s, Runner(move))) && HealthPhase(j, Do(j, s, Runner(move)))
  {
    if move.Lookup? { PendingKept(j, s, s.ctl.k, s.ctl.todo, [], Do(j, s, Runner(move))); }
  }

  lemma RollbackMove(j: Job, s: State, move: Move)
    requires Shape(j, s) && Layout(j, s) && Rollbacks(j, s) && HealthRollsBack(j)
    requires MoveEnabled(j, s, move) && !move.Snapshot? && !move.Revert?
    ensures Rollbacks(j, Do(j, s, Runner(move)))
  {
    if move.Lookup? || move.Judge? || move.Conclude? {
      RollbackAfter(j, s, move);
    } else if move.Collect? || move.CheckHealth? {
      RollbackBegins(j, s, move);
    } else {
      RollbackBefore(j, s, move);
    }
    FailureStays(j, s, Runner(move));
    JustifiedKept(j, s, MoveEvents(j, s, move), Do(j, s, Runner(move)));
  }

  lemma RollbackAction(j: Job, s: State, a: Action)
    requires Shape(j, s) && Layout(j, s) && Enabled(j, s, a) && HealthRollsBack(j)
    requires Rollbacks(j, s)
    ensures Rollbacks(j, Do(j, s, a))
  {
    var s', e := Do(j, s, a), Events(j, s, a);
    match a
    case Runner(move) =>
      if move.Snapshot? { RollbackSnapshot(j, s, move.order); }
      else if move.Revert? { RollbackRevert(j, s, move.delivered); }
      else { RollbackMove(j, s, move); }
    case Member(p, step) =>
      StepMovesOne(j, s, p, step);
      JustifiedKept(j, s, e, s');
      PhaseKept(j, s, e, s');
    case Around(o) =>
      JustifiedKept(j, s, e, s');
      PhaseKept(j, s, e, s');
  }

  // ----- the final status

  ghost predicate Deciding(s: State) {
    && (forall h, i :: 0 <= h < i < |s.log| ==> !(s.log[h].Decided? && s.log[i].Decided?))
    && (!s.ctl.Writing? && !s.ctl.Exited? ==> forall i :: 0 <= i < |s.log| ==> !s.log[i].Decided?)
    && (s.ctl.Writing? ==>
          Decided(s.ctl.status) in s.log && (s.ctl.status.RowCompleted? || s.ctl.status.RowFailed?))
  }

  /** A completed row was decided by this run, or was there before it. */
  ghost predicate RowHonest(before: DeploymentStatus, s: State) {
    s.row.RowCompleted? ==> before.RowCompleted? || Decided(RowCompleted) in s.log
  }

  ghost predicate DecisionCovered(j: Job, s: State) {
    Decided(RowCompleted) in s.log ==> s.settled == Frontier(j.plan, |j.plan|)
  }

  /** Only the judgement decides, and only it leads to the final write. */
  lemma OnlyJudgeDecides(j: Job, s: State, move: Move)
    requires Shape(j, s) && MoveEnabled(j, s, move) && !move.Judge?
    ensures forall i :: 0 <= i < |MoveEvents(j, s, move)| ==> !MoveEvents(j, s, move)[i].Decided?
    ensures !DoMove(j, s, move).ctl.Writing?
    ensures s.ctl.Writing? || s.ctl.Exited? ==> DoMove(j, s, move).ctl.Exited?
  {
  }

  lemma DecidingJudge(j: Job, s: State)
    requires Shape(j, s) && MoveEnabled(j, s, Judge) && Deciding(s)
    ensures Deciding(Do(j, s, Runner(Judge)))
  {
    var s' := Do(j, s, Runner(Judge));
    var status := Outcome(s.ctl.failed, s.results);
    assert s'.ctl == Writing(status) && s'.log == s.log + [Decided(status)];
    assert s'.log[|s.log|] == Decided(status);
  }

  lemma DecidingMove(j: Job, s: State, move: Move)
    requires Shape(j, s) && MoveEnabled(j, s, move) && Deciding(s)
    ensures Deciding(Do(j, s, Runner(move)))
  {
    if move.Judge? {
      DecidingJudge(j, s);
    } else {
      OnlyJudgeDecides(j, s, move);
      hide DoMove, MoveEvents, MoveEnabled;
      var s', e := Do(j, s, Runner(move)), MoveEvents(j, s, move);
      assert s'.log == s.log + e && s'.ctl == DoMove(j, s, move).ctl;
    }
  }

  lemma DecidingAction(j: Job, s: State, a: Action)
    requires Shape(j, s) && Layout(j, s) && Enabled(j, s, a) && Deciding(s)
    ensures Deciding(Do(j, s, a))
  {
    match a
    case Around(o) =>
      var s' := Do(j, s, a);
      assert s'.ctl == s.ctl;
      assert s.ctl.Writing? ==> Decided(s.ctl.status) in s'.log;
    case Member(p, step) =>
      LayoutStep(j, s, p, step);
      StepMovesOne(j, s, p, step);
    case Runner(move) => DecidingMove(j, s, move);
  }

  /** The run completes its row only by writing what it decided. */
  lemma MoveCompletes(j: Job, s: State, move: Move)
    requires Shape(j, s) && MoveEnabled(j, s, move) && DoMove(j, s, move).row.RowCompleted?
    ensures s.row.RowCompleted? || s.ctl == Writing(RowCompleted)
  {
  }

  /** What an action makes of a row, its history aside. */
  lemma EffectCompletes(j: Job, s: State, a: Action)
    requires Shape(j, s) && Enabled(j, s, a) && Effect(j, s, a).row.RowCompleted?
    ensures s.row.RowCompleted? || s.ctl == Writing(RowCompleted)
  {
    match a
    case Around(o) =>
    case Member(p, step) => StepKeepsRow(j, s, p, step);
    case Runner(move) => MoveCompletes(j, s, move);
  }

  lemma RowAction(j: Job, before: DeploymentStatus, s: State, a: Action)
    requires Shape(j, s) && Enabled(j, s, a) && Deciding(s)
    requires RowHonest(before, s)
    ensures RowHonest(before, Do(j, s, a))
  {
    hide Effect, Events, Enabled;
    var s' := Do(j, s, a);
    assert s'.log == s.log + Events(j, s, a);
    if s'.row.RowCompleted? {
      EffectCompletes(j, s, a);
    }
  }

  lemma StepKeepsRow(j: Job, s: State, p: nat, step: Step)
    requires Shape(j, s) && p < |s.members| && StepEnabled(j, s, p, step)
    ensures var s' := DoStep(j, s, p, step);
            && s'.row == s.row && s'.now == s.now && s'.deadline == s.deadline && s'.ctxDone == s.ctxDone
            && s'.log == s.log
  {
    hide DoStep;
  }

  lemma CoveredAction(j: Job, s: State, a: Action)
    requires Shape(j, s) && Layout(j, s) && Enabled(j, s, a) && Deciding(s)
    requires DecisionCovered(j, s)
    ensures DecisionCovered(j, Do(j, s, a))
  {
    var s' := Do(j, s, a);
    if Decided(RowCompleted) in s'.log {
      match a
      case Around(o) =>
      case Member(p, step) => LayoutStep(j, s, p, step);
      case Runner(move) =>
        if Decided(RowCompleted) in s.log {
          assert s.ctl.Writing? || s.ctl.Exited?;
        }
    }
  }
}
