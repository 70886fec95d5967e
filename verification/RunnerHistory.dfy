/** What the history of a run can and cannot contain. */
module RunnerHistory {
  import opened HubTypes
  import opened DeploymentPlan
  import opened RunnerModel
  import opened RunnerSafety

  /** `e` occurs in `log` before index `i`. */
  ghost predicate Before(log: seq<Event>, e: Event, i: int) {
    exists h :: 0 <= h < i && h < |log| && log[h] == e
  }

  /** The goroutine has got past sending its event. */
  predicate PastSending(m: Routine) {
    !m.Idle? && !Unsent(m)
  }

  /** Goroutines move only forward. */
  ghost predicate Forward(s: State, s': State) {
    && |s'.members| == |s.members|
    && s.spawned <= s'.spawned
    && (forall q :: 0 <= q < |s.members| && PastSending(s.members[q]) ==> PastSending(s'.members[q]))
    && (forall q :: 0 <= q < |s.members| && s.members[q].Returned? ==> s'.members[q] == s.members[q])
  }

  lemma EffectForward(j: Job, s: State, a: Action)
    requires Shape(j, s) && Layout(j, s) && Enabled(j, s, a)
    ensures Forward(s, Effect(j, s, a))
  {
    match a
    case Around(o) =>
    case Member(p, step) => StepMovesOne(j, s, p, step);
    case Runner(move) => if !move.Begin? { MoveKeepsMembers(j, s, move); }
  }

  lemma MoveKeepsMembers(j: Job, s: State, move: Move)
    requires Shape(j, s) && MoveEnabled(j, s, move) && !move.Begin?
    ensures DoMove(j, s, move).members == s.members && DoMove(j, s, move).spawned == s.spawned
    ensures DoMove(j, s, move).results == s.results
  {
    hide DoMove;
  }

  // ----- returned goroutines and the history agree

  ghost predicate ReturnsRecorded(s: State) {
    && (forall p :: 0 <= p < |s.members| && s.members[p].Returned? ==> Finished(p, s.members[p].ok) in s.log)
    && (forall i :: 0 <= i < |s.log| && s.log[i].Finished? ==>
          s.log[i].p < |s.members| && s.members[s.log[i].p] == Returned(s.log[i].ok))
  }

  lemma ReturnsKept(s: State, e: seq<Event>, s': State)
    requires ReturnsRecorded(s) && Forward(s, s') && s'.log == s.log + e
    requires forall i :: 0 <= i < |e| && e[i].Finished? ==>
               e[i].p < |s.members| && s'.members[e[i].p] == Returned(e[i].ok)
    requires forall q :: 0 <= q < |s.members| && s'.members[q].Returned? ==>
               s.members[q].Returned? || Finished(q, s'.members[q].ok) in e
    ensures ReturnsRecorded(s')
  {
    forall p | 0 <= p < |s'.members| && s'.members[p].Returned?
      ensures Finished(p, s'.members[p].ok) in s'.log
    {
      assert s.members[p].Returned? ==> Finished(p, s.members[p].ok) in s.log;
    }
  }

  lemma StepReturns(j: Job, s: State, p: nat, step: Step)
    requires Shape(j, s) && p < |s.members| && StepEnabled(j, s, p, step)
    ensures var e := StepEvents(j, s, p, step);
            var m := DoStep(j, s, p, step).members[p];
            if m.Returned? then e == [Finished(p, m.ok)] else |e| == 1 ==> !e[0].Finished?
  {
  }

  lemma ReturnsStep(j: Job, s: State, p: nat, step: Step)
    requires Shape(j, s) && Layout(j, s) && p < |s.members| && StepEnabled(j, s, p, step) && ReturnsRecorded(s)
    ensures ReturnsRecorded(Do(j, s, Member(p, step)))
  {
    EffectForward(j, s, Member(p, step));
    StepMovesOne(j, s, p, step);
    StepReturns(j, s, p, step);
    ReturnsKept(s, StepEvents(j, s, p, step), Do(j, s, Member(p, step)));
  }

  lemma ReturnsMove(j: Job, s: State, move: Move)
    requires Shape(j, s) && Layout(j, s) && MoveEnabled(j, s, move) && ReturnsRecorded(s)
    ensures ReturnsRecorded(Do(j, s, Runner(move)))
  {
    EffectForward(j, s, Runner(move));
    if !move.Begin? { MoveKeepsMembers(j, s, move); }
    ReturnsKept(s, MoveEvents(j, s, move), Do(j, s, Runner(move)));
  }

  lemma ReturnsAction(j: Job, s: State, a: Action)
    requires Shape(j, s) && Layout(j, s) && Enabled(j, s, a) && ReturnsRecorded(s)
    ensures ReturnsRecorded(Do(j, s, a))
  {
    match a
    case Around(o) => ReturnsKept(s, Events(j, s, a), Do(j, s, a));
    case Member(p, step) => ReturnsStep(j, s, p, step);
    case Runner(move) => ReturnsMove(j, s, move);
  }

  // ----- deploy events

  /** Entry `i` of the history, if it is a deploy event, went to a target of a started stage,
      with that stage's position and the deployed version, after every member of every earlier
      stage had returned success. */
  ghost predicate SentInOrder(j: Job, s: State, i: nat)
    requires i < |s.log| && s.log[i].Sent?
  {
    var e := s.log[i];
    && e.k < |j.plan|
    && StageAt(j, e.k).lo <= e.p < StageAt(j, e.k).hi <= s.spawned
    && e.p < |s.members| && PastSending(s.members[e.p])
    && e.id == j.targets[e.p] && e.version == j.version
    && e.position == StageAt(j, e.k).position && e.total == StageAt(j, e.k).total
    && forall q :: 0 <= q < StageAt(j, e.k).lo ==> Before(s.log, Finished(q, true), i)
  }

  ghost predicate SendsInOrder(j: Job, s: State) {
    && (forall i :: 0 <= i < |s.log| && s.log[i].Sent? ==> SentInOrder(j, s, i))
    && (forall h, i :: 0 <= h < i < |s.log| && s.log[h].Sent? && s.log[i].Sent? ==> s.log[h].p != s.log[i].p)
  }

  lemma BeforeGrows(log: seq<Event>, log': seq<Event>, e: Event, i: nat)
    requires Before(log, e, i) && i <= |log| && log <= log'
    ensures Before(log', e, i)
  {
    var h :| 0 <= h < i && h < |log| && log[h] == e;
    assert log'[h] == e;
  }

  lemma SentKept(j: Job, s: State, s': State, i: nat)
    requires i < |s.log| && s.log[i].Sent? && SentInOrder(j, s, i)
    requires Forward(s, s') && s.log <= s'.log
    ensures s'.log[i] == s.log[i] && SentInOrder(j, s', i)
  {
    var e := s.log[i];
    forall q | 0 <= q < StageAt(j, e.k).lo
      ensures Before(s'.log, Finished(q, true), i)
    {
      BeforeGrows(s.log, s'.log, Finished(q, true), i);
    }
  }

  /** The event a goroutine of the current stage is about to send is in order. */
  lemma NewSent(j: Job, s: State, p: nat, s': State)
    requires Shape(j, s) && Layout(j, s) && ReturnsRecorded(s)
    requires p < |s.members| && StepEnabled(j, s, p, Notify(true))
    requires s' == Do(j, s, Member(p, Notify(true)))
    ensures |s'.log| == |s.log| + 1 && s'.log[|s.log|].Sent? && s'.log[|s.log|].p == p
    ensures SentInOrder(j, s', |s.log|)
  {
    LayoutStep(j, s, p, Notify(true));
    var k := s.ctl.k;
    assert s.members[p].k == k;
    forall q | 0 <= q < StageAt(j, k).lo
      ensures Before(s'.log, Finished(q, true), |s.log|)
    {
      assert s.members[q] == Returned(true);
      assert Finished(q, true) in s.log;
      var h :| 0 <= h < |s.log| && s.log[h] == Finished(q, true);
      assert s'.log[h] == s.log[h];
    }
  }

  lemma OnlyNotifySends(j: Job, s: State, a: Action)
    requires Shape(j, s) && Enabled(j, s, a)
    requires |Events(j, s, a)| == 1 && Events(j, s, a)[0].Sent?
    ensures a.Member? && a.step == Notify(true)
  {
  }

  /** The one new deploy event of an action is in order, and goes to a position that had none. */
  lemma SendsNew(j: Job, s: State, a: Action)
    requires Shape(j, s) && Layout(j, s) && Enabled(j, s, a)
    requires ReturnsRecorded(s) && SendsInOrder(j, s)
    requires |Do(j, s, a).log| == |s.log| + 1 && Do(j, s, a).log[|s.log|].Sent?
    ensures SentInOrder(j, Do(j, s, a), |s.log|)
    ensures forall h :: 0 <= h < |s.log| && s.log[h].Sent? ==> s.log[h].p != Do(j, s, a).log[|s.log|].p
  {
    var s' := Do(j, s, a);
    assert Events(j, s, a) == [s'.log[|s.log|]];
    OnlyNotifySends(j, s, a);
    NewSent(j, s, a.p, s');
    hide Do, Events;
    forall h | 0 <= h < |s.log| && s.log[h].Sent? ensures s.log[h].p != a.p {
      assert SentInOrder(j, s, h);
    }
  }

  lemma LogOfDo(j: Job, s: State, a: Action)
    requires Shape(j, s) && Enabled(j, s, a)
    ensures s.log <= Do(j, s, a).log && |Do(j, s, a).log| <= |s.log| + 1
    ensures Do(j, s, a) == Effect(j, s, a).(log := Do(j, s, a).log)
  {
  }

  lemma SendsAction(j: Job, s: State, a: Action)
    requires Shape(j, s) && Layout(j, s) && Enabled(j, s, a)
    requires ReturnsRecorded(s) && SendsInOrder(j, s)
    ensures SendsInOrder(j, Do(j, s, a))
  {
    EffectForward(j, s, a);
    LogOfDo(j, s, a);
    var s' := Do(j, s, a);
    hide Do, Enabled;
    forall i | 0 <= i < |s'.log| && s'.log[i].Sent?
      ensures SentInOrder(j, s', i)
      ensures forall h :: 0 <= h < i && s'.log[h].Sent? ==> s'.log[h].p != s'.log[i].p
    {
      if i < |s.log| {
        SentKept(j, s, s', i);
      } else {
        SendsNew(j, s, a);
      }
    }
  }

  // ----- reports behind a completion

  /** Position `p` was reset, and its agent reported completion later. */
  ghost predicate Told(j: Job, log: seq<Event>, p: nat)
    requires p < |j.targets|
  {
    exists i :: 0 <= i < |log| && log[i] == Reported(j.targets[p], Completed) && Before(log, Reset(p), i)
  }

  /** Some position with the instance id of `p` was told so; with distinct targets, `p` itself. */
  ghost predicate Heard(j: Job, log: seq<Event>, p: nat)
    requires p < |j.targets|
  {
    exists q: nat :: q < |j.targets| && j.targets[q] == j.targets[p] && Told(j, log, q)
  }

  predicate PastReset(m: Routine) {
    !m.Idle? && !m.Spawned?
  }

  /** The record of `p`, or its goroutine, counts the instance as completed. */
  predicate CountsCompleted(j: Job, s: State, p: nat)
    requires Shape(j, s) && p < |s.members|
  {
    s.results[j.targets[p]].status.Completed? || s.members[p].Marking? || s.members[p] == Returned(true)
  }

  /** An instance counts as completed only if its agent said so after a reset of its record. */
  ghost predicate CompletionHeard(j: Job, s: State, p: nat)
    requires Shape(j, s) && p < |s.members|
  {
    PastReset(s.members[p]) ==>
      Reset(p) in s.log && (CountsCompleted(j, s, p) ==> Heard(j, s.log, p))
  }

  ghost predicate CompletionsHeard(j: Job, s: State)
    requires Shape(j, s)
  {
    forall p :: 0 <= p < |s.members| ==> CompletionHeard(j, s, p)
  }

  lemma HeardGrows(j: Job, log: seq<Event>, log': seq<Event>, p: nat)
    requires p < |j.targets| && Heard(j, log, p) && log <= log'
    ensures Heard(j, log', p)
  {
    var q: nat :| q < |j.targets| && j.targets[q] == j.targets[p] && Told(j, log, q);
    var i :| 0 <= i < |log| && log[i] == Reported(j.targets[q], Completed) && Before(log, Reset(q), i);
    BeforeGrows(log, log', Reset(q), i);
    assert log'[i] == log[i];
    assert Told(j, log', q);
  }

  /** Positions with one instance id hear of the same reports. */
  lemma HeardShared(j: Job, log: seq<Event>, p: nat, q: nat)
    requires p < |j.targets| && q < |j.targets| && j.targets[p] == j.targets[q] && Heard(j, log, p)
    ensures Heard(j, log, q)
  {
  }

  /** Nothing newly counts `p` as completed. */
  lemma HeardKept(j: Job, s: State, s': State, p: nat)
    requires Shape(j, s) && Shape(j, s') && p < |s.members| && CompletionHeard(j, s, p)
    requires s.log <= s'.log
    requires PastReset(s'.members[p]) ==> PastReset(s.members[p])
    requires PastReset(s.members[p]) && CountsCompleted(j, s', p) ==>
               CountsCompleted(j, s, p) || Heard(j, s.log, p)
    ensures CompletionHeard(j, s', p)
  {
    if PastReset(s'.members[p]) {
      assert Reset(p) in s'.log;
      if Heard(j, s.log, p) { HeardGrows(j, s.log, s'.log, p); }
    }
  }

  lemma HeardReport(j: Job, s: State, id: Id, state: DeploymentState, details: string, p: nat)
    requires Shape(j, s) && p < |s.members| && CompletionHeard(j, s, p)
    ensures CompletionHeard(j, Do(j, s, Around(Report(id, state, details))), p)
  {
    var a := Around(Report(id, state, details));
    var s' := Do(j, s, a);
    if id == j.targets[p] && id in s.results && state.Completed? && PastReset(s.members[p]) {
      var h :| 0 <= h < |s.log| && s.log[h] == Reset(p);
      assert s'.log[h] == Reset(p) && s'.log[|s.log|] == Reported(id, Completed);
      assert Before(s'.log, Reset(p), |s.log|);
      assert Told(j, s'.log, p);
    } else {
      HeardKept(j, s, s', p);
    }
  }

  /** Steps that leave the records alone; only a tick that reads a completed record leads to the mark. */
  lemma QuietStepRecords(j: Job, s: State, p: nat, step: Step)
    requires Shape(j, s) && p < |s.members| && StepEnabled(j, s, p, step)
    requires !step.ResetRecord? && !step.Mark? && !step.RecordFailure?
    ensures var s' := DoStep(j, s, p, step);
            && PastReset(s'.members[p]) && PastReset(s.members[p]) && s'.results == s.results
            && !s'.members[p].Returned?
            && (s'.members[p].Marking? ==> s.results[j.targets[p]].status.Completed?)
  {
  }

  /** Steps that write a record. */
  lemma WritingStepRecords(j: Job, s: State, p: nat, step: Step)
    requires Shape(j, s) && p < |s.members| && StepEnabled(j, s, p, step)
    requires step.ResetRecord? || step.Mark? || step.RecordFailure?
    ensures var s' := DoStep(j, s, p, step);
            && PastReset(s'.members[p])
            && (forall i :: i in s.results && i != j.targets[p] ==> s'.results[i] == s.results[i])
            && (if step.ResetRecord? then !CountsCompleted(j, s', p)
                else PastReset(s.members[p]) && (CountsCompleted(j, s', p) ==> CountsCompleted(j, s, p)))
  {
  }

  /** What one goroutine step does to the records and to its own standing. */
  lemma StepRecords(j: Job, s: State, p: nat, step: Step)
    requires Shape(j, s) && p < |s.members| && StepEnabled(j, s, p, step)
    ensures var s' := DoStep(j, s, p, step);
            var id := j.targets[p];
            && PastReset(s'.members[p])
            && (forall i :: i in s.results && i != id ==> s'.results[i] == s.results[i])
            && (if step.ResetRecord? then !CountsCompleted(j, s', p)
                else PastReset(s.members[p]) && (CountsCompleted(j, s', p) ==> CountsCompleted(j, s, p)))
  {
    if step.ResetRecord? || step.Mark? || step.RecordFailure? {
      WritingStepRecords(j, s, p, step);
    } else {
      QuietStepRecords(j, s, p, step);
      hide DoStep, StepEnabled;
    }
  }

  lemma HeardReset(j: Job, s: State, p: nat)
    requires Shape(j, s) && p < |s.members| && s.members[p].Spawned?
    ensures CompletionHeard(j, Do(j, s, Member(p, ResetRecord)), p)
  {
    var s' := Do(j, s, Member(p, ResetRecord));
    assert s'.log[|s.log|] == Reset(p);
  }

  lemma HeardStep(j: Job, s: State, p: nat, step: Step, q: nat)
    requires Shape(j, s) && p < |s.members| && StepEnabled(j, s, p, step)
    requires q < |s.members| && CompletionHeard(j, s, q) && CompletionHeard(j, s, p)
    ensures CompletionHeard(j, Do(j, s, Member(p, step)), q)
  {
    if q == p && step.ResetRecord? {
      HeardReset(j, s, p);
    } else {
      var s' := Do(j, s, Member(p, step));
      StepRecords(j, s, p, step);
      StepMovesOne(j, s, p, step);
      LogOfDo(j, s, Member(p, step));
      assert s' == DoStep(j, s, p, step).(log := s'.log);
      hide Do, DoStep, StepEnabled;
      if q != p && j.targets[q] == j.targets[p] && CountsCompleted(j, s, p) && PastReset(s.members[p]) {
        HeardShared(j, s.log, p, q);
      }
      HeardKept(j, s, s', q);
    }
  }

  lemma HeardMove(j: Job, s: State, move: Move, q: nat)
    requires Shape(j, s) && Layout(j, s) && MoveEnabled(j, s, move)
    requires q < |s.members| && CompletionHeard(j, s, q)
    ensures CompletionHeard(j, Do(j, s, Runner(move)), q)
  {
    var s' := Do(j, s, Runner(move));
    if move.Begin? {
      assert s'.members[q] == s.members[q] || s'.members[q].Spawned?;
      assert s'.results == s.results;
    } else {
      MoveKeepsMembers(j, s, move);
    }
    HeardKept(j, s, s', q);
  }

  lemma CompletionsAction(j: Job, s: State, a: Action)
    requires Shape(j, s) && Layout(j, s) && Enabled(j, s, a)
    requires CompletionsHeard(j, s)
    ensures CompletionsHeard(j, Do(j, s, a))
  {
    var s' := Do(j, s, a);
    forall q | 0 <= q < |s'.members|
      ensures CompletionHeard(j, s', q)
    {
      EffectForward(j, s, a);
      assert CompletionHeard(j, s, q);
      match a
      case Member(p, step) =>
        assert CompletionHeard(j, s, p);
        HeardStep(j, s, p, step, q);
      case Runner(move) => HeardMove(j, s, move, q);
      case Around(o) =>
        if o.Report? { HeardReport(j, s, o.id, o.state, o.details, q); }
        else { HeardKept(j, s, s', q); }
    }
  }

  // ----- events behind a goroutine's progress

  ghost predicate SentTo(log: seq<Event>, p: nat) {
    exists i :: 0 <= i < |log| && log[i].Sent? && log[i].p == p
  }

  /** A goroutine that waits for its instance, or has succeeded, did send its event. */
  ghost predicate WaitersSent(s: State) {
    forall p :: 0 <= p < |s.members| && (InFlight(s.members[p]) || s.members[p] == Returned(true)) ==> SentTo(s.log, p)
  }

  lemma SentToGrows(log: seq<Event>, e: seq<Event>, p: nat)
    requires SentTo(log, p)
    ensures SentTo(log + e, p)
  {
    var i :| 0 <= i < |log| && log[i].Sent? && log[i].p == p;
    assert (log + e)[i] == log[i];
  }

  lemma StepSends(j: Job, s: State, p: nat, step: Step)
    requires Shape(j, s) && p < |s.members| && StepEnabled(j, s, p, step)
    ensures var m := DoStep(j, s, p, step).members[p];
            InFlight(m) || m == Returned(true) ==>
              if step.Notify? then step.delivered else InFlight(s.members[p])
  {
  }

  lemma WaitersAction(j: Job, s: State, a: Action)
    requires Shape(j, s) && Layout(j, s) && Enabled(j, s, a) && WaitersSent(s)
    ensures WaitersSent(Do(j, s, a))
  {
    var s', e := Do(j, s, a), Events(j, s, a);
    match a {
      case Around(o) =>
      case Member(p, step) => StepMovesOne(j, s, p, step); StepSends(j, s, p, step);
      case Runner(move) => if !move.Begin? { MoveKeepsMembers(j, s, move); }
    }
    forall q | 0 <= q < |s'.members| && (InFlight(s'.members[q]) || s'.members[q] == Returned(true))
      ensures SentTo(s'.log, q)
    {
      if a.Member? && a.p == q && a.step.Notify? {
        assert s'.log[|s.log|].Sent? && s'.log[|s.log|].p == q;
      } else {
        SentToGrows(s.log, e, q);
      }
    }
  }
}
