/** Whose report stands behind a completed position, when a batch holds each target once. */
module RunnerTold {
  import opened HubTypes
  import opened DeploymentPlan
  import opened RunnerModel
  import opened RunnerSafety
  import opened RunnerHistory

  /** No batch holds the same target twice; different batches may. */
  ghost predicate DistinctInBatches(j: Job) {
    forall k, p, q :: 0 <= k < |j.plan| && j.plan[k].lo <= p < q < j.plan[k].hi <= |j.targets| ==>
      j.targets[p] != j.targets[q]
  }

  ghost predicate FinishedBefore(log: seq<Event>, p: nat, i: int) {
    exists h :: 0 <= h < i && h < |log| && log[h].Finished? && log[h].p == p
  }

  /** The agent of position `p` reported completion after the reset of `p` and before its goroutine
      returned. */
  ghost predicate ToldInTime(j: Job, log: seq<Event>, p: nat)
    requires p < |j.targets|
  {
    exists i :: 0 <= i < |log| && log[i] == Reported(j.targets[p], Completed) &&
      Before(log, Reset(p), i) && !FinishedBefore(log, p, i)
  }

  lemma ToldStays(j: Job, log: seq<Event>, log': seq<Event>, p: nat)
    requires p < |j.targets| && log <= log' && ToldInTime(j, log, p)
    ensures ToldInTime(j, log', p)
  {
    var i :| 0 <= i < |log| && log[i] == Reported(j.targets[p], Completed) &&
      Before(log, Reset(p), i) && !FinishedBefore(log, p, i);
    BeforeGrows(log, log', Reset(p), i);
    assert log'[i] == log[i] && forall h :: 0 <= h < i ==> log'[h] == log[h];
  }

  /** Once a goroutine has returned it is too late to be told. */
  lemma UntoldStays(j: Job, log: seq<Event>, log': seq<Event>, p: nat, ok: bool)
    requires p < |j.targets| && log <= log' && Finished(p, ok) in log && !ToldInTime(j, log, p)
    ensures !ToldInTime(j, log', p)
  {
    var f :| 0 <= f < |log| && log[f] == Finished(p, ok);
    assert forall h :: 0 <= h < |log| ==> log[h] == log'[h];
    forall i | 0 <= i < |log'| && log'[i] == Reported(j.targets[p], Completed) && Before(log', Reset(p), i)
      ensures FinishedBefore(log', p, i)
    {
      if f < i {
        assert log'[f].Finished? && log'[f].p == p;
      } else {
        var h :| 0 <= h < i && log'[h] == Reset(p);
        assert log[h] == Reset(p) && log[i] == log'[i];
        assert FinishedBefore(log, p, i);
      }
    }
  }

  /** Past its reset, and not returned. */
  predicate Active(m: Routine) {
    PastReset(m) && !m.Returned?
  }

  /** The record of an active position, and its goroutine, count it as completed only on the word of
      its agent. */
  ghost predicate OwnWord(j: Job, s: State, p: nat)
    requires Shape(j, s) && p < |s.members|
  {
    var m := s.members[p];
    && (Active(m) ==> Reset(p) in s.log)
    && ((Active(m) && s.results[j.targets[p]].status.Completed?) || m.Marking? || m == Returned(true) ==>
          ToldInTime(j, s.log, p))
  }

  /** Nothing newly counts `p` as completed. */
  lemma OwnKept(j: Job, s: State, s': State, p: nat)
    requires Shape(j, s) && Shape(j, s') && p < |s.members| && OwnWord(j, s, p)
    requires s.log <= s'.log
    requires s'.members[p] == s.members[p] || !PastReset(s'.members[p])
    requires Active(s.members[p]) && s'.results[j.targets[p]].status.Completed? ==>
               s.results[j.targets[p]].status.Completed?
    ensures OwnWord(j, s', p)
  {
    if Active(s'.members[p]) {
      assert Reset(p) in s'.log;
    }
    if ToldInTime(j, s.log, p) { ToldStays(j, s.log, s'.log, p); }
  }

  lemma OwnReport(j: Job, s: State, id: Id, state: DeploymentState, details: string, p: nat)
    requires Shape(j, s) && p < |s.members| && OwnWord(j, s, p) && ReturnsRecorded(s)
    ensures OwnWord(j, Do(j, s, Around(Report(id, state, details))), p)
  {
    var s' := Do(j, s, Around(Report(id, state, details)));
    if id == j.targets[p] && id in s.results && state.Completed? && Active(s.members[p]) {
      var h :| 0 <= h < |s.log| && s.log[h] == Reset(p);
      assert s'.log[h] == Reset(p) && s'.log[|s.log|] == Reported(id, Completed);
      assert Before(s'.log, Reset(p), |s.log|) && !FinishedBefore(s'.log, p, |s.log|);
      assert ToldInTime(j, s'.log, p);
    } else {
      OwnKept(j, s, s', p);
    }
  }

  /** A step of the goroutine of `p` itself. */
  lemma OwnStep(j: Job, s: State, p: nat, step: Step)
    requires Shape(j, s) && p < |s.members| && StepEnabled(j, s, p, step) && OwnWord(j, s, p)
    ensures OwnWord(j, Do(j, s, Member(p, step)), p)
  {
    var s' := Do(j, s, Member(p, step));
    StepRecords(j, s, p, step);
    if step.ResetRecord? {
      assert s'.log[|s.log|] == Reset(p);
    } else {
      assert Reset(p) in s'.log;
      if ToldInTime(j, s.log, p) { ToldStays(j, s.log, s'.log, p); }
    }
  }

  /** A step of another goroutine: with the same target, `p` is not in its batch, and so not active. */
  lemma OwnOther(j: Job, s: State, q: nat, step: Step, p: nat)
    requires Shape(j, s) && Layout(j, s) && q < |s.members| && StepEnabled(j, s, q, step)
    requires p < |s.members| && p != q && OwnWord(j, s, p) && DistinctInBatches(j)
    ensures OwnWord(j, Do(j, s, Member(q, step)), p)
  {
    var s' := Do(j, s, Member(q, step));
    StepRecords(j, s, q, step);
    StepMovesOne(j, s, q, step);
    if j.targets[p] == j.targets[q] {
      var stage := StageAt(j, s.ctl.k);
      assert stage.lo <= q < stage.hi;
      assert !(stage.lo <= p < stage.hi);
    }
    OwnKept(j, s, s', p);
  }

  lemma OwnMove(j: Job, s: State, move: Move, p: nat)
    requires Shape(j, s) && Layout(j, s) && MoveEnabled(j, s, move) && p < |s.members| && OwnWord(j, s, p)
    ensures OwnWord(j, Do(j, s, Runner(move)), p)
  {
    var s' := Do(j, s, Runner(move));
    if !move.Begin? {
      MoveKeepsMembers(j, s, move);
    }
    OwnKept(j, s, s', p);
  }

  lemma OwnAction(j: Job, s: State, a: Action, p: nat)
    requires Shape(j, s) && Layout(j, s) && ReturnsRecorded(s) && Enabled(j, s, a) && DistinctInBatches(j)
    requires p < |s.members| && OwnWord(j, s, p)
    ensures OwnWord(j, Do(j, s, a), p)
  {
    hide OwnWord, Layout;
    match a
    case Member(q, step) => if q == p { OwnStep(j, s, p, step); } else { OwnOther(j, s, q, step, p); }
    case Runner(move) => OwnMove(j, s, move, p);
    case Around(o) =>
      if o.Report? { OwnReport(j, s, o.id, o.state, o.details, p); } else { OwnKept(j, s, Do(j, s, a), p); }
  }
}
