/** Why goroutines end as they do, and why a run context is done. */
module RunnerReasons {
  import opened HubTypes
  import opened DeploymentPlan
  import opened RunnerModel
  import opened RunnerSafety
  import opened RunnerHistory
  import opened RunnerTheorems
  import opened RunnerRecords

  /** In state `s` the step gives goroutine `p` good reason to go on to its end `m`. */
  ghost predicate Justifies(j: Job, s: State, p: nat, step: Step, m: Routine)
    requires Shape(j, s) && p < |s.members| && j.targets[p] in s.results
  {
    var r := s.results[j.targets[p]];
    match m
    case Marking => step.Poll? && r.status == Completed
    case Failing(_, NotConnected) => step.CheckSubscribed? && j.targets[p] !in s.subscribed
    case Failing(_, NotDelivered) => step == Notify(false)
    case Failing(_, ContextDone) => step.GiveUp? && s.ctxDone
    case Failing(_, TimedOut) =>
      step.TimeOut? && s.members[p].Waiting? && s.now - s.members[p].since >= j.timing.instanceTimeout
    case Failing(_, LeaseExpired) =>
      step.Poll? && r.status == InProgress && r.lastStatusAt.Some? && s.now - r.lastStatusAt.value > j.timing.leaseTimeout
    case Failing(_, DeploymentFailed(cause)) => step.Poll? && r.status == Failed && cause == r.errorMessage
    case Failing(_, InstanceRolledBack) => step.Poll? && r.status == RolledBack
    case _ => false
  }

  predicate AtEnd(m: Routine) {
    m.Marking? || m.Failing?
  }

  lemma TargetHasRecord(j: Job, s: State, p: nat)
    requires Shape(j, s) && p < |j.targets|
    ensures p < |s.members| && j.targets[p] in s.results
  {
    assert j.targets[p] in TargetSet(j);
  }

  lemma StepJustifies(j: Job, s: State, p: nat, step: Step)
    requires Shape(j, s) && p < |s.members| && StepEnabled(j, s, p, step) && j.targets[p] in s.results
    ensures var m := DoStep(j, s, p, step).members[p];
            AtEnd(m) ==> Justifies(j, s, p, step, m)
  {
  }

  /** Whoever else acts, a goroutine that is at its end or waiting was there before. */
  lemma OthersKeep(j: Job, s: State, a: Action, s': State, p: nat)
    requires Takes(j, s, a, s') && Layout(j, s) && p < |s.members| && !(a.Member? && a.p == p)
    requires p < |s'.members| && (AtEnd(s'.members[p]) || s'.members[p].Waiting?)
    ensures s'.members[p] == s.members[p]
  {
    match a
    case Around(o) =>
    case Member(q, step) => StepMovesOne(j, s, q, step);
    case Runner(move) => if !move.Begin? { MoveKeepsMembers(j, s, move); }
  }

  /** In every run a goroutine marks its instance completed only after a tick that found it so, and fails
      only for its reason: the instance was not subscribed or its send failed, the context was done, the
      timeout had passed, or a tick found an expired lease, a failure or a rollback. */
  lemma {:induction false} EndsForReason(j: Job, b: Behaviour, n: nat, p: nat) returns (m: nat)
    requires IsRun(j, b) && n < |b.states| && p < |j.targets|
    requires p < |b.states[n].members| && AtEnd(b.states[n].members[p])
    ensures m < n && b.acts[m].Member? && b.acts[m].p == p
    ensures Shape(j, b.states[m]) && p < |b.states[m].members| && j.targets[p] in b.states[m].results
    ensures Justifies(j, b.states[m], p, b.acts[m].step, b.states[n].members[p])
  {
    m := n - 1;
    var s := b.states[m];
    assert Takes(j, s, b.acts[m], b.states[n]);
    SafeRun(j, b, m);
    TargetHasRecord(j, s, p);
    if b.acts[m].Member? && b.acts[m].p == p {
      StepJustifies(j, s, p, b.acts[m].step);
    } else {
      OthersKeep(j, s, b.acts[m], b.states[n], p);
      m := EndsForReason(j, b, m, p);
    }
  }

  /** What a tick finds in the record is the last word on the instance in the history. */
  lemma TickReadsLastWord(j: Job, b: Behaviour, m: nat, p: nat) returns (i: nat)
    requires IsRun(j, b) && m < |b.acts| && b.acts[m] == Member(p, Poll)
    ensures p < |j.targets| && j.targets[p] in b.states[m].results
    ensures LastWordAt(j, b.states[m].log, j.targets[p], i)
    ensures b.states[m].results[j.targets[p]].status == Word(b.states[m].log[i])
  {
    var s := b.states[m];
    assert Takes(j, s, b.acts[m], b.states[m + 1]);
    SafeRun(j, b, m);
    assert CompletionHeard(j, s, p) && Reset(p) in s.log;
    hide Safe, Takes, CompletionHeard;
    TargetHasRecord(j, s, p);
    TargetsHaveRecords(j, b, 0);
    RecordIsLastWord(j, b, m, j.targets[p]);
    var h :| 0 <= h < |s.log| && s.log[h] == Reset(p);
    assert Subject(j, s.log[h]) == Some(j.targets[p]);
    LastWordExists(j, s.log, j.targets[p]);
    i :| LastWordAt(j, s.log, j.targets[p], i);
  }

  lemma StepWaits(j: Job, s: State, p: nat, step: Step)
    requires Shape(j, s) && p < |s.members| && StepEnabled(j, s, p, step) && DoStep(j, s, p, step).members[p].Waiting?
    ensures if step.Poll? then s.members[p].Waiting? && s.members[p].since == DoStep(j, s, p, step).members[p].since
            else step.Arm? && s.now == DoStep(j, s, p, step).members[p].since
  {
  }

  /** A goroutine that waits has armed its timers at the instant it counts from. */
  lemma {:induction false} WaitsSinceArmed(j: Job, b: Behaviour, n: nat, p: nat) returns (m: nat)
    requires IsRun(j, b) && n < |b.states| && p < |j.targets|
    requires p < |b.states[n].members| && b.states[n].members[p].Waiting?
    ensures m < n && b.acts[m] == Member(p, Arm) && b.states[m].now == b.states[n].members[p].since
  {
    m := n - 1;
    var s := b.states[m];
    assert Takes(j, s, b.acts[m], b.states[n]);
    SafeRun(j, b, m);
    if b.acts[m].Member? && b.acts[m].p == p {
      StepWaits(j, s, p, b.acts[m].step);
    } else {
      OthersKeep(j, s, b.acts[m], b.states[n], p);
    }
    hide Takes, Safe;
    if b.acts[m] != Member(p, Arm) {
      m := WaitsSinceArmed(j, b, m, p);
    }
  }

  /** No instance is given up for taking too long before the time allowed to it has passed since its event
      was sent and its timers were armed. */
  lemma TimesOutInTime(j: Job, b: Behaviour, n: nat, p: nat) returns (armed: nat, m: nat)
    requires IsRun(j, b) && n < |b.states| && p < |j.targets|
    requires p < |b.states[n].members| && b.states[n].members[p].Failing? && b.states[n].members[p].reason == TimedOut
    ensures armed < m < n && b.acts[armed] == Member(p, Arm) && b.acts[m] == Member(p, TimeOut)
    ensures b.states[m].now - b.states[armed].now >= j.timing.instanceTimeout
  {
    m := EndsForReason(j, b, n, p);
    armed := WaitsSinceArmed(j, b, m, p);
  }

  // ----- the context

  /** The context is done only once somebody has cancelled, or the time has run out. */
  ghost predicate DoneForCause(s: State) {
    s.ctxDone ==> s.cancelRequested || s.parentDone || s.now >= s.deadline
  }

  lemma CauseOfDone(j: Job, s: State, a: Action)
    requires Shape(j, s) && Enabled(j, s, a) && DoneForCause(s)
    ensures DoneForCause(Do(j, s, a))
  {
    match a
    case Around(o) =>
    case Member(p, step) => StepKeepsRest(j, s, p, step);
    case Runner(move) => MoveKeepsRest(j, s, move);
  }

  lemma StepKeepsRest(j: Job, s: State, p: nat, step: Step)
    requires Shape(j, s) && p < |s.members| && StepEnabled(j, s, p, step)
    ensures DoStep(j, s, p, step) == s.(members := DoStep(j, s, p, step).members, results := DoStep(j, s, p, step).results)
  {
    hide DoStep;
  }

  lemma MoveKeepsRest(j: Job, s: State, move: Move)
    requires Shape(j, s) && MoveEnabled(j, s, move)
    ensures var s' := DoMove(j, s, move);
            && s'.now == s.now && s'.deadline == s.deadline && s'.ctxDone == s.ctxDone
            && s'.cancelRequested == s.cancelRequested && s'.parentDone == s.parentDone
  {
    hide DoMove;
  }

  /** The run context is done only after a cancellation, the hub's shutdown, or the whole timeout. */
  lemma DoneHasCause(j: Job, b: Behaviour, n: nat)
    requires IsRun(j, b) && n < |b.states|
    ensures b.states[n].ctxDone ==>
              b.states[n].cancelRequested || b.states[n].parentDone ||
              b.states[n].now - b.states[0].now >= j.timing.timeout
  {
    DeadlineFixed(j, b, n);
    DoneRun(j, b, n);
  }

  lemma {:induction false} DoneRun(j: Job, b: Behaviour, n: nat)
    requires IsRun(j, b) && n < |b.states|
    ensures Shape(j, b.states[n]) && DoneForCause(b.states[n])
  {
    if n > 0 {
      DoneRun(j, b, n - 1);
      assert Takes(j, b.states[n - 1], b.acts[n - 1], b.states[n]);
      hide DoneForCause;
      CauseOfDone(j, b.states[n - 1], b.acts[n - 1]);
    }
  }
}
