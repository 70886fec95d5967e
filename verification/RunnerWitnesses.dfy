/** Runs that complete: one is built for every deployment that has the time, with or without a target
    told twice over. */
module RunnerWitnesses {
  import opened HubTypes
  import opened DeploymentPlan
  import opened RunnerModel
  import opened RunnerSafety
  import opened RunnerHistory
  import opened RunnerTiming
  import opened RunnerTold
  import opened RunnerTheorems

  /** `b` is a run that has led to `s`. */
  ghost predicate Reaches(j: Job, b: Behaviour, s: State) {
    IsRun(j, b) && Shape(j, s) && b.states[|b.acts|] == s
  }

  /** `c` goes on where `b` stopped. */
  ghost predicate GoesOn(b: Behaviour, c: Behaviour) {
    b.states <= c.states && b.acts <= c.acts
  }

  lemma Take(j: Job, b: Behaviour, s: State, a: Action) returns (c: Behaviour)
    requires Reaches(j, b, s) && Enabled(j, s, a)
    ensures Reaches(j, c, Do(j, s, a)) && GoesOn(b, c)
  {
    c := Extend(b, j, a);
  }

  // ----- single steps

  lemma DoReset(j: Job, s: State, p: nat)
    requires Shape(j, s) && p < |s.members| && s.members[p].Spawned?
    ensures Enabled(j, s, Member(p, ResetRecord))
    ensures Do(j, s, Member(p, ResetRecord)) ==
            s.(members := s.members[p := Checking(s.members[p].k)],
               results := s.results[j.targets[p] := FreshLease(s.now)], log := s.log + [Reset(p)])
  {
  }

  lemma DoAround(j: Job, s: State, o: Outside)
    requires Shape(j, s) && OutsideEnabled(s, o) && !o.Report?
    ensures Enabled(j, s, Around(o)) && Do(j, s, Around(o)) == DoOutside(s, o)
  {
    assert s.log + [] == s.log;
  }

  lemma DoReport(j: Job, s: State, id: Id, state: DeploymentState)
    requires Shape(j, s) && id in s.results
    ensures Enabled(j, s, Around(Report(id, state, "")))
    ensures Do(j, s, Around(Report(id, state, ""))) ==
            s.(results := s.results[id := ApplyReport(s.results[id], s.now, state, "")],
               log := s.log + [Reported(id, state)])
  {
  }

  lemma DoCheck(j: Job, s: State, p: nat)
    requires Shape(j, s) && p < |s.members| && s.members[p].Checking?
    ensures Enabled(j, s, Member(p, CheckSubscribed))
    ensures Do(j, s, Member(p, CheckSubscribed)) ==
            s.(members := s.members[p := if j.targets[p] in s.subscribed then Notifying(s.members[p].k)
                                         else Failing(false, NotConnected)])
  {
    assert s.log + [] == s.log;
  }

  lemma DoNotify(j: Job, s: State, p: nat)
    requires Shape(j, s) && p < |s.members| && s.members[p].Notifying? && j.targets[p] in s.subscribed
    ensures Enabled(j, s, Member(p, Notify(true)))
    ensures var stage := StageAt(j, s.members[p].k);
            Do(j, s, Member(p, Notify(true))) ==
            s.(members := s.members[p := Notified],
               log := s.log + [Sent(p, s.members[p].k, j.targets[p], j.version, stage.position, stage.total)])
  {
  }

  lemma DoArm(j: Job, s: State, p: nat)
    requires Shape(j, s) && p < |s.members| && s.members[p].Notified?
    ensures Enabled(j, s, Member(p, Step.Arm))
    ensures Do(j, s, Member(p, Step.Arm)) == s.(members := s.members[p := Waiting(s.now, s.now + POLL_INTERVAL)])
  {
    assert s.log + [] == s.log;
  }

  lemma DoPoll(j: Job, s: State, p: nat)
    requires Shape(j, s) && p < |s.members| && s.members[p].Waiting? && s.members[p].nextTick <= s.now
    ensures Enabled(j, s, Member(p, Poll))
    ensures Do(j, s, Member(p, Poll)) ==
            s.(members := s.members[p := AfterPoll(s.members[p], s.results[j.targets[p]], s.now, j.timing.leaseTimeout)])
  {
    assert s.log + [] == s.log;
  }

  lemma DoMark(j: Job, s: State, p: nat)
    requires Shape(j, s) && p < |s.members| && s.members[p].Marking?
    ensures Enabled(j, s, Member(p, Mark))
    ensures Do(j, s, Member(p, Mark)) ==
            s.(members := s.members[p := Returned(true)],
               results := s.results[j.targets[p] := Marked(s.results[j.targets[p]], s.now)],
               log := s.log + [Finished(p, true)])
  {
  }

  // ----- one member

  /** `s` with the record of position `p` reset and its event sent, waiting for the first tick. */
  function Armed(j: Job, s: State, p: nat): State
    requires Shape(j, s) && p < |s.members| && s.members[p].Spawned?
  {
    var stage := StageAt(j, s.members[p].k);
    s.(members := s.members[p := Waiting(s.now, s.now + POLL_INTERVAL)],
       results := s.results[j.targets[p] := FreshLease(s.now)],
       subscribed := s.subscribed + {j.targets[p]},
       log := s.log + [Reset(p), Sent(p, s.members[p].k, j.targets[p], j.version, stage.position, stage.total)])
  }

  lemma ArmOne(j: Job, b: Behaviour, s: State, p: nat) returns (c: Behaviour)
    requires Reaches(j, b, s) && p < |s.members| && s.members[p].Spawned?
    ensures Reaches(j, c, Armed(j, s, p)) && GoesOn(b, c)
  {
    hide Reaches, Enabled, Do, Shape;
    InShape(j, b, s);
    DoReset(j, s, p);
    c := Take(j, b, s, Member(p, ResetRecord));
    var s1 := Do(j, s, Member(p, ResetRecord));
    DoAround(j, s1, Connect(j.targets[p]));
    c := Take(j, c, s1, Around(Connect(j.targets[p])));
    var s2 := Do(j, s1, Around(Connect(j.targets[p])));
    DoCheck(j, s2, p);
    c := Take(j, c, s2, Member(p, CheckSubscribed));
    var s3 := Do(j, s2, Member(p, CheckSubscribed));
    DoNotify(j, s3, p);
    c := Take(j, c, s3, Member(p, Notify(true)));
    var s4 := Do(j, s3, Member(p, Notify(true)));
    DoArm(j, s4, p);
    c := Take(j, c, s4, Member(p, Step.Arm));
    assert Do(j, s4, Member(p, Step.Arm)) == Armed(j, s, p);
  }

  lemma InShape(j: Job, b: Behaviour, s: State)
    requires Reaches(j, b, s)
    ensures Shape(j, s) && |s.members| == |j.targets| && s.results.Keys == TargetSet(j)
  {
  }

  /** A position whose tick is due, after its agent's report, the tick and the mark. */
  function Completing(j: Job, s: State, p: nat): State
    requires Shape(j, s) && p < |s.members|
  {
    var id := j.targets[p];
    var told := ApplyReport(s.results[id], s.now, Completed, "");
    s.(members := s.members[p := Returned(true)], results := s.results[id := Marked(told, s.now)],
       log := s.log + [Reported(id, Completed), Finished(p, true)])
  }

  lemma ReportAndPoll(j: Job, b: Behaviour, s: State, p: nat) returns (c: Behaviour, s': State)
    requires Reaches(j, b, s) && p < |s.members| && s.members[p].Waiting? && s.members[p].nextTick <= s.now
    ensures Shape(j, s) && Reaches(j, c, s') && GoesOn(b, c)
    ensures var id := j.targets[p];
            s' == s.(members := s.members[p := Marking],
                     results := s.results[id := ApplyReport(s.results[id], s.now, Completed, "")],
                     log := s.log + [Reported(id, Completed)])
  {
    hide Reaches, Enabled, Do, Shape;
    InShape(j, b, s);
    assert j.targets[p] in s.results;
    DoReport(j, s, j.targets[p], Completed);
    c := Take(j, b, s, Around(Report(j.targets[p], Completed, "")));
    var s1 := Do(j, s, Around(Report(j.targets[p], Completed, "")));
    DoPoll(j, s1, p);
    c := Take(j, c, s1, Member(p, Poll));
    s' := Do(j, s1, Member(p, Poll));
  }

  lemma FinishOne(j: Job, b: Behaviour, s: State, p: nat) returns (c: Behaviour)
    requires Reaches(j, b, s) && p < |s.members| && s.members[p].Waiting? && s.members[p].nextTick <= s.now
    ensures Shape(j, s) && Reaches(j, c, Completing(j, s, p)) && GoesOn(b, c)
  {
    hide Reaches, Enabled, Do, Shape;
    InShape(j, b, s);
    var s1;
    c, s1 := ReportAndPoll(j, b, s, p);
    InShape(j, c, s1);
    DoMark(j, s1, p);
    c := Take(j, c, s1, Member(p, Mark));
    assert Do(j, s1, Member(p, Mark)) == Completing(j, s, p);
  }

  /** A position whose tick is due and whose record another goroutine has completed. */
  lemma CarryOne(j: Job, b: Behaviour, s: State, p: nat) returns (c: Behaviour, s': State)
    requires Reaches(j, b, s) && p < |s.members| && s.members[p].Waiting? && s.members[p].nextTick <= s.now
    requires Shape(j, s) && s.results[j.targets[p]].status.Completed?
    ensures Reaches(j, c, s') && GoesOn(b, c)
    ensures s' == s.(members := s.members[p := Returned(true)],
                     results := s.results[j.targets[p] := Marked(s.results[j.targets[p]], s.now)],
                     log := s.log + [Finished(p, true)])
  {
    hide Reaches, Enabled, Do, Shape;
    InShape(j, b, s);
    DoPoll(j, s, p);
    c := Take(j, b, s, Member(p, Poll));
    var s1 := Do(j, s, Member(p, Poll));
    InShape(j, c, s1);
    DoMark(j, s1, p);
    c := Take(j, c, s1, Member(p, Mark));
    s' := Do(j, s1, Member(p, Mark));
  }

  // ----- all members of a batch

  predicate Within(p: int, lo: nat, hi: nat, skip: set<nat>) {
    lo <= p < hi && p !in skip
  }

  /** What arming the positions [lo, hi), but for some, makes of a state. */
  ghost predicate ArmedRange(j: Job, s: State, s': State, lo: nat, hi: nat, skip: set<nat>)
    requires Shape(j, s) && hi <= |s.members|
  {
    && s' == s.(members := s'.members, results := s'.results, subscribed := s'.subscribed, log := s'.log)
    && |s'.members| == |s.members| && s'.results.Keys == s.results.Keys
    && (forall p :: 0 <= p < |s.members| ==>
          s'.members[p] == if Within(p, lo, hi, skip) then Waiting(s.now, s.now + POLL_INTERVAL) else s.members[p])
    && (forall id :: id in s.results ==>
          s'.results[id] == s.results[id] || exists p :: Within(p, lo, hi, skip) && j.targets[p] == id)
    && s.log <= s'.log
    && (forall i :: |s.log| <= i < |s'.log| && s'.log[i].Reset? ==> Within(s'.log[i].p, lo, hi, skip))
  }

  lemma {:induction false} ArmAll(j: Job, b: Behaviour, s: State, lo: nat, hi: nat, skip: set<nat>)
    returns (c: Behaviour, s': State)
    requires Reaches(j, b, s) && lo <= hi <= |s.members|
    requires forall p :: lo <= p < hi ==> s.members[p].Spawned?
    ensures Shape(j, s) && Reaches(j, c, s') && GoesOn(b, c) && ArmedRange(j, s, s', lo, hi, skip)
    decreases hi
  {
    hide Reaches, Shape, ArmedRange;
    InShape(j, b, s);
    if lo == hi {
      c, s' := b, s;
      ArmedNone(j, s, lo);
    } else {
      var s1;
      c, s1 := ArmAll(j, b, s, lo, hi - 1, skip);
      InShape(j, c, s1);
      ArmedKeeps(j, s, s1, lo, hi - 1, skip);
      if hi - 1 in skip {
        s' := s1;
      } else {
        c := ArmOne(j, c, s1, hi - 1);
        s' := Armed(j, s1, hi - 1);
      }
      ArmedNext(j, s, s1, s', lo, hi - 1, skip);
    }
  }

  lemma ArmedNone(j: Job, s: State, lo: nat)
    requires Shape(j, s) && lo <= |s.members|
    ensures forall skip :: ArmedRange(j, s, s, lo, lo, skip)
  {
  }

  lemma ArmedKeeps(j: Job, s: State, s1: State, lo: nat, p: nat, skip: set<nat>)
    requires Shape(j, s) && lo <= p < |s.members| && ArmedRange(j, s, s1, lo, p, skip)
    ensures |s1.members| == |s.members| && s1.members[p] == s.members[p]
  {
  }

  lemma ArmedNext(j: Job, s: State, s1: State, s': State, lo: nat, p: nat, skip: set<nat>)
    requires Shape(j, s) && Shape(j, s1) && lo <= p < |s.members|
    requires ArmedRange(j, s, s1, lo, p, skip) && s1.members[p].Spawned?
    requires s' == if p in skip then s1 else Armed(j, s1, p)
    ensures ArmedRange(j, s, s', lo, p + 1, skip)
  {
    assert p !in skip ==> Within(p, lo, p + 1, skip);
    forall id | id in s.results
      ensures s'.results[id] == s.results[id] || exists q :: Within(q, lo, p + 1, skip) && j.targets[q] == id
    {
      if s1.results[id] != s.results[id] {
        var q :| Within(q, lo, p, skip) && j.targets[q] == id;
        assert Within(q, lo, p + 1, skip);
      }
    }
  }

  /** What completing the positions [lo, hi), but for some, makes of a state. */
  ghost predicate FinishedRange(j: Job, s: State, s': State, lo: nat, hi: nat, skip: set<nat>)
    requires Shape(j, s) && hi <= |s.members|
  {
    && s' == s.(members := s'.members, results := s'.results, log := s'.log)
    && |s'.members| == |s.members| && s'.results.Keys == s.results.Keys
    && (forall p :: 0 <= p < |s.members| ==>
          s'.members[p] == if Within(p, lo, hi, skip) then Returned(true) else s.members[p])
    && (forall id :: id in s.results && s.results[id].status.Completed? ==> s'.results[id].status.Completed?)
    && (forall p :: 0 <= p < |s.members| && Within(p, lo, hi, skip) ==> s'.results[j.targets[p]].status.Completed?)
    && s.log <= s'.log
    && (forall i :: |s.log| <= i < |s'.log| ==> !s'.log[i].Reset?)
  }

  lemma {:induction false} FinishAll(j: Job, b: Behaviour, s: State, lo: nat, hi: nat, skip: set<nat>)
    returns (c: Behaviour, s': State)
    requires Reaches(j, b, s) && lo <= hi <= |s.members|
    requires forall p :: Within(p, lo, hi, skip) ==> s.members[p].Waiting? && s.members[p].nextTick <= s.now
    ensures Shape(j, s) && Reaches(j, c, s') && GoesOn(b, c) && FinishedRange(j, s, s', lo, hi, skip)
    decreases hi
  {
    hide Reaches, Shape, FinishedRange;
    InShape(j, b, s);
    if lo == hi {
      c, s' := b, s;
      FinishedNone(j, s, lo);
    } else {
      var s1;
      assert forall p :: Within(p, lo, hi - 1, skip) ==> Within(p, lo, hi, skip);
      c, s1 := FinishAll(j, b, s, lo, hi - 1, skip);
      InShape(j, c, s1);
      FinishedKeeps(j, s, s1, lo, hi - 1, skip);
      if hi - 1 in skip {
        s' := s1;
      } else {
        assert Within(hi - 1, lo, hi, skip);
        c := FinishOne(j, c, s1, hi - 1);
        s' := Completing(j, s1, hi - 1);
      }
      FinishedNext(j, s, s1, s', lo, hi - 1, skip);
    }
  }

  lemma FinishedNone(j: Job, s: State, lo: nat)
    requires Shape(j, s) && lo <= |s.members|
    ensures forall skip :: FinishedRange(j, s, s, lo, lo, skip)
  {
  }

  lemma FinishedKeeps(j: Job, s: State, s1: State, lo: nat, p: nat, skip: set<nat>)
    requires Shape(j, s) && lo <= p < |s.members| && FinishedRange(j, s, s1, lo, p, skip)
    ensures |s1.members| == |s.members| && s1.members[p] == s.members[p] && s1.now == s.now
  {
  }

  lemma FinishedNext(j: Job, s: State, s1: State, s': State, lo: nat, p: nat, skip: set<nat>)
    requires Shape(j, s) && Shape(j, s1) && lo <= p < |s.members|
    requires FinishedRange(j, s, s1, lo, p, skip)
    requires s' == if p in skip then s1 else Completing(j, s1, p)
    ensures FinishedRange(j, s, s', lo, p + 1, skip)
  {
    forall q | 0 <= q < |s.members| && Within(q, lo, p + 1, skip)
      ensures s'.results[j.targets[q]].status.Completed?
    {
      assert q < p ==> Within(q, lo, p, skip);
    }
  }

  // ----- one batch

  /** Between batches, on time but for `late`: everything deployed so far counts as completed. */
  ghost predicate Along(j: Job, s: State, k: nat, late: nat) {
    && Shape(j, s) && k <= |j.plan| && s.ctl == AtStage(k) && !s.ctxDone
    && s.now == Entered(j, s) + Elapsed(j.plan, k) + late
    && DoneBelow(j, s, Frontier(j.plan, k))
    && ResetsBelow(s.log, Frontier(j.plan, k))
  }

  ghost predicate DoneBelow(j: Job, s: State, n: nat)
    requires Shape(j, s)
  {
    n <= |j.targets| && forall p :: 0 <= p < n ==> s.results[j.targets[p]].status.Completed?
  }

  ghost predicate ResetsBelow(log: seq<Event>, n: nat) {
    forall i :: 0 <= i < |log| && log[i].Reset? ==> log[i].p < n
  }

  /** In the middle of stage `k`, its goroutines just started. */
  ghost predicate Begun(j: Job, s: State, k: nat, late: nat) {
    && Shape(j, s) && k < |j.plan| && s.ctl == InStage(k) && !s.ctxDone
    && s.now == Entered(j, s) + Elapsed(j.plan, k) + late
    && DoneBelow(j, s, StageAt(j, k).lo) && ResetsBelow(s.log, StageAt(j, k).lo)
    && forall p :: StageAt(j, k).lo <= p < StageAt(j, k).hi ==> s.members[p].Spawned?
  }

  /** At the end of stage `k`, its goroutines all returned with success. */
  ghost predicate AllDone(j: Job, s: State, k: nat, late: nat) {
    && Shape(j, s) && k < |j.plan| && s.ctl == InStage(k) && !s.ctxDone
    && s.now == Entered(j, s) + Elapsed(j.plan, k) + PollTime(j.plan[k]) + late
    && DoneBelow(j, s, StageAt(j, k).hi) && ResetsBelow(s.log, StageAt(j, k).hi)
    && AllOk(s.members, StageAt(j, k).lo, StageAt(j, k).hi)
  }

  lemma BeginStage(j: Job, b: Behaviour, s: State, k: nat, late: nat) returns (c: Behaviour, s': State)
    requires Reaches(j, b, s) && Along(j, s, k, late) && k < |j.plan|
    ensures Reaches(j, c, s') && GoesOn(b, c) && Begun(j, s', k, late) && s'.deadline == s.deadline && s'.log == s.log
  {
    hide Reaches;
    c := Take(j, b, s, Runner(Begin));
    s' := Do(j, s, Runner(Begin));
    assert s.log + [] == s.log;
  }

  lemma WaitFor(j: Job, b: Behaviour, s: State, d: nat) returns (c: Behaviour, s': State)
    requires Reaches(j, b, s) && !s.ctxDone && s.now + d <= s.deadline
    ensures Reaches(j, c, s') && GoesOn(b, c) && s' == s.(now := s.now + d)
  {
    hide Reaches, Do, Enabled;
    InShape(j, b, s);
    DoAround(j, s, Elapse(d));
    c := Take(j, b, s, Around(Elapse(d)));
    s' := Do(j, s, Around(Elapse(d)));
  }

  /** Every member waits one interval for its tick and completes. */
  lemma DeployStage(j: Job, b: Behaviour, s: State, k: nat, late: nat) returns (c: Behaviour, s': State)
    requires Reaches(j, b, s) && Begun(j, s, k, late)
    requires s.now + PollTime(j.plan[k]) <= s.deadline
    ensures Reaches(j, c, s') && GoesOn(b, c) && AllDone(j, s', k, late) && s'.deadline == s.deadline
  {
    hide Reaches, Shape;
    InShape(j, b, s);
    var lo, hi := StageAt(j, k).lo, StageAt(j, k).hi;
    var s1, s2;
    c, s1 := ArmAll(j, b, s, lo, hi, {});
    c, s2 := WaitFor(j, c, s1, PollTime(j.plan[k]));
    InShape(j, c, s2);
    assert forall p :: Within(p, lo, hi, {}) ==> s2.members[p] == s1.members[p];
    c, s' := FinishAll(j, c, s2, lo, hi, {});
    InShape(j, c, s');
    StageDone(j, s, s1, s2, s', k);
  }

  lemma StageDone(j: Job, s: State, s1: State, s2: State, s': State, k: nat)
    requires Shape(j, s) && Shape(j, s2) && Shape(j, s') && k < |j.plan| && DoneBelow(j, s, StageAt(j, k).lo)
    requires ResetsBelow(s.log, StageAt(j, k).lo)
    requires ArmedRange(j, s, s1, StageAt(j, k).lo, StageAt(j, k).hi, {})
    requires s2 == s1.(now := s2.now) && FinishedRange(j, s2, s', StageAt(j, k).lo, StageAt(j, k).hi, {})
    ensures DoneBelow(j, s', StageAt(j, k).hi) && ResetsBelow(s'.log, StageAt(j, k).hi)
    ensures AllOk(s'.members, StageAt(j, k).lo, StageAt(j, k).hi)
  {
    var lo, hi := StageAt(j, k).lo, StageAt(j, k).hi;
    assert forall p :: lo <= p < hi ==> Within(p, lo, hi, {});
    forall p | 0 <= p < hi ensures s'.results[j.targets[p]].status.Completed? {
      if p < lo && s1.results[j.targets[p]] != s.results[j.targets[p]] {
        var q :| Within(q, lo, hi, {}) && j.targets[q] == j.targets[p];
        assert s'.results[j.targets[q]].status.Completed?;
      }
    }
    forall i | 0 <= i < |s'.log| && s'.log[i].Reset? ensures s'.log[i].p < hi {
      if i < |s.log| {
        assert s'.log[i] == s.log[i];
      } else {
        assert i < |s1.log| && s'.log[i] == s1.log[i];
      }
    }
  }

  lemma CollectAll(j: Job, b: Behaviour, s: State, k: nat) returns (c: Behaviour, s': State)
    requires Reaches(j, b, s) && Shape(j, s) && s.ctl == InStage(k)
    requires AllOk(s.members, StageAt(j, k).lo, StageAt(j, k).hi)
    ensures Reaches(j, c, s') && GoesOn(b, c) && s' == s.(settled := StageAt(j, k).hi, ctl := Settled(k))
  {
    hide Reaches;
    c := Take(j, b, s, Runner(Collect));
    s' := Do(j, s, Runner(Collect));
    assert s.log + [] == s.log;
  }

  lemma Leave(j: Job, b: Behaviour, s: State, k: nat) returns (c: Behaviour, s': State)
    requires Reaches(j, b, s) && Shape(j, s) && s.ctl == Settled(k) && !s.ctxDone
    ensures Reaches(j, c, s') && GoesOn(b, c)
    ensures s' == s.(row := s'.row, ctl := if StageAt(j, k).pause.Some? then Paused(k, s.now) else AtStage(k + 1))
    ensures StageAt(j, k).writesProgress ==> s'.row.RowInProgress?
  {
    hide Reaches;
    c := Take(j, b, s, Runner(Advance(true)));
    s' := Do(j, s, Runner(Advance(true)));
    assert s.log + [] == s.log;
  }

  lemma Resume(j: Job, b: Behaviour, s: State, k: nat, since: nat) returns (c: Behaviour, s': State)
    requires Reaches(j, b, s) && Shape(j, s) && s.ctl == Paused(k, since)
    requires s.now >= since + StageAt(j, k).pause.value
    ensures Reaches(j, c, s') && GoesOn(b, c)
    ensures s' == s.(ctl := if StageAt(j, k).checksHealth then HealthCheck(k) else AtStage(k + 1))
  {
    hide Reaches;
    c := Take(j, b, s, Runner(ResumeTimer));
    s' := Do(j, s, Runner(ResumeTimer));
    assert s.log + [] == s.log;
  }

  lemma PassHealth(j: Job, b: Behaviour, s: State, k: nat) returns (c: Behaviour, s': State)
    requires Reaches(j, b, s) && Shape(j, s) && s.ctl == HealthCheck(k) && DoneBelow(j, s, StageAt(j, k).hi)
    ensures Reaches(j, c, s') && GoesOn(b, c) && s' == s.(ctl := AtStage(k + 1))
  {
    hide Reaches;
    c := Take(j, b, s, Runner(CheckHealth));
    s' := Do(j, s, Runner(CheckHealth));
    assert s.log + [] == s.log;
  }

  /** From a batch that is done to the next one, through its pause and health check. */
  lemma LeaveStage(j: Job, b: Behaviour, s: State, k: nat, late: nat) returns (c: Behaviour, s': State)
    requires Reaches(j, b, s) && AllDone(j, s, k, late)
    requires Entered(j, s) + Elapsed(j.plan, k + 1) + late <= s.deadline
    ensures Reaches(j, c, s') && GoesOn(b, c) && Along(j, s', k + 1, late)
    ensures s'.deadline == s.deadline && s'.log == s.log
  {
    hide Reaches, Shape;
    InShape(j, b, s);
    var stage := StageAt(j, k);
    c, s' := CollectAll(j, b, s, k);
    InShape(j, c, s');
    c, s' := Leave(j, c, s', k);
    if stage.pause.Some? {
      var since := s.now;
      c, s' := WaitFor(j, c, s', stage.pause.value);
      InShape(j, c, s');
      c, s' := Resume(j, c, s', k, since);
      if stage.checksHealth {
        InShape(j, c, s');
        c, s' := PassHealth(j, c, s', k);
      }
    }
    InShape(j, c, s');
  }

  lemma {:induction false} ElapsedGrows(plan: seq<Stage>, k: nat, n: nat)
    requires k <= n <= |plan|
    ensures Elapsed(plan, k) <= Elapsed(plan, n)
  {
    if k < n {
      ElapsedGrows(plan, k, n - 1);
    }
  }

  /** There is time for the whole plan, and for `late` more. */
  predicate InTime(j: Job, late: nat) {
    Elapsed(j.plan, |j.plan|) + late <= j.timing.timeout
  }

  lemma HappyStage(j: Job, b: Behaviour, s: State, k: nat, late: nat) returns (c: Behaviour, s': State)
    requires Reaches(j, b, s) && Along(j, s, k, late) && k < |j.plan| && InTime(j, late)
    ensures Reaches(j, c, s') && GoesOn(b, c) && Along(j, s', k + 1, late) && s'.deadline == s.deadline
  {
    hide Reaches, Along, Begun, AllDone;
    ElapsedGrows(j.plan, k + 1, |j.plan|);
    c, s' := BeginStage(j, b, s, k, late);
    BegunAt(j, s', k, late);
    c, s' := DeployStage(j, c, s', k, late);
    c, s' := LeaveStage(j, c, s', k, late);
  }

  lemma BegunAt(j: Job, s: State, k: nat, late: nat)
    requires Begun(j, s, k, late)
    ensures k < |j.plan| && s.now == Entered(j, s) + Elapsed(j.plan, k) + late
  {
  }

  /** The rest of the batches. */
  lemma {:induction false} HappyRest(j: Job, b: Behaviour, s: State, k: nat, late: nat) returns (c: Behaviour, s': State)
    requires Reaches(j, b, s) && Along(j, s, k, late) && InTime(j, late)
    ensures Reaches(j, c, s') && GoesOn(b, c) && Along(j, s', |j.plan|, late)
    decreases |j.plan| - k
  {
    c, s' := b, s;
    if k < |j.plan| {
      c, s' := HappyStage(j, b, s, k, late);
      c, s' := HappyRest(j, c, s', k + 1, late);
    }
  }

  /** The first `k` batches. */
  lemma {:induction false} HappyStart(j: Job, s0: State, k: nat) returns (c: Behaviour, s': State)
    requires Init(j, s0) && InTime(j, 0) && k <= |j.plan|
    ensures Reaches(j, c, s') && c.states[0] == s0 && Along(j, s', k, 0)
  {
    if k == 0 {
      c, s' := Enter(j, s0);
    } else {
      var d;
      d, s' := HappyStart(j, s0, k - 1);
      c, s' := HappyStage(j, d, s', k - 1, 0);
    }
  }

  lemma Enter(j: Job, s0: State) returns (c: Behaviour, s': State)
    requires Init(j, s0)
    ensures Reaches(j, c, s') && c.states[0] == s0 && Along(j, s', 0, 0)
  {
    c := Take(j, Behaviour([s0], []), s0, Runner(Start(true)));
    s' := Do(j, s0, Runner(Start(true)));
  }

  // ----- the end

  /** Agents of the first `n` targets say that they have completed. */
  lemma {:induction false} ClaimAll(j: Job, b: Behaviour, s: State, n: nat) returns (c: Behaviour, s': State)
    requires Reaches(j, b, s) && n <= |j.targets|
    ensures Reaches(j, c, s') && GoesOn(b, c) && Shape(j, s') && DoneBelow(j, s', n)
    ensures s' == s.(results := s'.results, log := s'.log) && s.log <= s'.log
  {
    hide Reaches, Do, Enabled, Shape;
    InShape(j, b, s);
    c, s' := b, s;
    if n > 0 {
      var s1;
      c, s1 := ClaimAll(j, b, s, n - 1);
      InShape(j, c, s1);
      assert j.targets[n - 1] in TargetSet(j);
      DoReport(j, s1, j.targets[n - 1], Completed);
      c := Take(j, c, s1, Around(Report(j.targets[n - 1], Completed, "")));
      s' := Do(j, s1, Around(Report(j.targets[n - 1], Completed, "")));
      InShape(j, c, s');
    }
  }

  /** With every record completed, the run completes its row. */
  lemma Complete(j: Job, b: Behaviour, s: State) returns (c: Behaviour, s': State)
    requires Reaches(j, b, s) && Shape(j, s) && s.ctl == AtStage(|j.plan|) && !s.ctxDone
    requires DoneBelow(j, s, |j.targets|)
    ensures Reaches(j, c, s') && GoesOn(b, c) && s'.row.RowCompleted? && s.log <= s'.log
  {
    hide Reaches;
    c := Take(j, b, s, Runner(Begin));
    var s1 := Do(j, s, Runner(Begin));
    assert s1 == s.(ctl := Ending(false), log := s.log + []);
    assert AllSucceeded(s1.results);
    c, s' := JudgeAndWrite(j, c, s1);
  }

  lemma JudgeAndWrite(j: Job, b: Behaviour, s: State) returns (c: Behaviour, s': State)
    requires Reaches(j, b, s) && Shape(j, s) && s.ctl == Ending(false) && !s.ctxDone && AllSucceeded(s.results)
    ensures Reaches(j, c, s') && GoesOn(b, c) && s'.row.RowCompleted? && s.log <= s'.log
  {
    hide Reaches;
    c := Take(j, b, s, Runner(Judge));
    var s1 := Do(j, s, Runner(Judge));
    c := Take(j, c, s1, Runner(Conclude(true)));
    s' := Do(j, s1, Runner(Conclude(true)));
  }

  // ----- which deployments can complete

  ghost predicate CompletedRun(j: Job, s0: State, b: Behaviour) {
    IsRun(j, b) && b.states[0] == s0 && Last(b).row.RowCompleted?
  }

  lemma CompletesFrom(j: Job, b: Behaviour, s: State, late: nat) returns (c: Behaviour)
    requires Reaches(j, b, s) && Along(j, s, |j.plan|, late)
    ensures CompletedRun(j, b.states[0], c) && GoesOn(b, c) && s.log <= Last(c).log
  {
    var s1, s2;
    c, s1 := ClaimAll(j, b, s, |j.targets|);
    c, s2 := Complete(j, c, s1);
  }

  lemma CompletesInTime(j: Job, s0: State) returns (b: Behaviour)
    requires Init(j, s0) && InTime(j, 0)
    ensures CompletedRun(j, s0, b)
  {
    var s;
    b, s := HappyStart(j, s0, |j.plan|);
    b := CompletesFrom(j, b, s, 0);
  }

  /** A deployment can be completed exactly if its timeout leaves the time that its polls and pauses
      take. */
  lemma CompletesIffInTime(j: Job, s0: State)
    requires Init(j, s0) && !s0.row.RowCompleted?
    ensures (exists b :: CompletedRun(j, s0, b)) <==> InTime(j, 0)
  {
    if b :| CompletedRun(j, s0, b) {
      CompletedTookTime(j, b, |b.states| - 1);
    }
    if InTime(j, 0) {
      var b := CompletesInTime(j, s0);
    }
  }

  /** Whatever the batches do not reach is never sent to. */
  lemma NothingSentBeyondPlan(j: Job, b: Behaviour, p: nat)
    requires IsRun(j, b) && SentTo(Last(b).log, p)
    ensures p < Frontier(j.plan, |j.plan|)
  {
    var i :| 0 <= i < |Last(b).log| && Last(b).log[i].Sent? && Last(b).log[i].p == p;
    BatchesInOrder(j, b, |b.states| - 1, i);
    FrontierGrows(j, Last(b).log[i].k + 1, |j.plan|);
  }

  /** How far the batches get when their count overflows: to the first position of a rolling deployment,
      and behind the canary of a canary deployment. */
  function OverflowReach(c: Config): nat {
    if c.strategy.Canary? then CanarySize(|c.targets|) else 0
  }

  lemma OverflowFrontier(c: Config)
    requires WellTyped(c) && !BatchesFit(c)
    ensures Frontier(Plan(c), |Plan(c)|) == OverflowReach(c) < |c.targets|
    ensures !c.strategy.Canary? ==> Plan(c) == []
  {
    var n, b := |c.targets|, EffectiveSize(c.batchSize);
    if c.strategy.Canary? {
      BatchCount(n - CanarySize(n), b);
      assert Plan(c) == [CanaryStage(c)];
    } else {
      BatchCount(n, b);
      assert Plan(c) == [];
    }
  }

  /** A deployment whose batch count overflows can complete its row after sending to the canary and to
      nobody else; a rolling one after sending to nobody at all. */
  lemma OverflowCompletesUnsent(c: Config, j: Job, s0: State) returns (b: Behaviour)
    requires WellTyped(c) && j == JobOf(c) && !BatchesFit(c) && Init(j, s0)
    requires c.strategy.Canary? ==> InTime(j, 0)
    ensures CompletedRun(j, s0, b)
    ensures OverflowReach(c) < |c.targets|
    ensures forall p: nat :: SentTo(Last(b).log, p) ==> p < OverflowReach(c)
  {
    OverflowFrontier(c);
    hide Plan, JobOf, WellTyped, BatchesFit;
    b := CompletesInTime(j, s0);
    forall p: nat | SentTo(Last(b).log, p) ensures p < OverflowReach(c) {
      NothingSentBeyondPlan(j, b, p);
    }
  }

  /** Completed means sent to everyone exactly when the batch count does not overflow, for every
      deployment that has the time to complete. */
  lemma EveryoneIsSentIff(c: Config, j: Job, s0: State)
    requires WellTyped(c) && j == JobOf(c) && Init(j, s0) && !s0.row.RowCompleted? && InTime(j, 0)
    ensures (forall b, p: nat :: CompletedRun(j, s0, b) && p < |j.targets| ==> SentTo(Last(b).log, p)) <==> BatchesFit(c)
  {
    if BatchesFit(c) {
      PlanCovers(c);
      AllSent(j, s0);
    } else {
      var b := OverflowCompletesUnsent(c, j, s0);
      assert !SentTo(Last(b).log, OverflowReach(c));
    }
  }

  lemma AllSent(j: Job, s0: State)
    requires Frontier(j.plan, |j.plan|) == |j.targets| && !s0.row.RowCompleted?
    ensures forall b, p: nat :: CompletedRun(j, s0, b) && p < |j.targets| ==> SentTo(Last(b).log, p)
  {
    forall b, p: nat | CompletedRun(j, s0, b) && p < |j.targets| ensures SentTo(Last(b).log, p) {
      CompletedMeansTold(j, b, |b.states| - 1, p);
    }
  }

  // ----- a target twice in one batch

  /** All of stage `k` has succeeded but for two positions of one target: the first is due for its tick,
      and the second has not been reset yet. */
  ghost predicate TwoLeft(j: Job, s: State, k: nat, p: nat, q: nat) {
    && Shape(j, s) && k < |j.plan| && s.ctl == InStage(k) && !s.ctxDone
    && s.now == Entered(j, s) + Elapsed(j.plan, k) + POLL_INTERVAL
    && StageAt(j, k).lo <= p < q < StageAt(j, k).hi && j.targets[p] == j.targets[q]
    && s.members[p].Waiting? && s.members[p].nextTick <= s.now && s.members[q].Spawned?
    && (forall r :: StageAt(j, k).lo <= r < StageAt(j, k).hi && r != p && r != q ==> s.members[r] == Returned(true))
    && (forall r :: 0 <= r < StageAt(j, k).hi && j.targets[r] != j.targets[q] ==>
          s.results[j.targets[r]].status.Completed?)
    && Reset(q) !in s.log && ResetsBelow(s.log, StageAt(j, k).hi)
  }

  lemma LeaveTwo(j: Job, b: Behaviour, s: State, k: nat, p: nat, q: nat) returns (c: Behaviour, s': State)
    requires Reaches(j, b, s) && Begun(j, s, k, 0) && s.now + POLL_INTERVAL <= s.deadline
    requires StageAt(j, k).lo <= p < q < StageAt(j, k).hi && j.targets[p] == j.targets[q]
    ensures Reaches(j, c, s') && GoesOn(b, c) && TwoLeft(j, s', k, p, q) && s'.deadline == s.deadline
  {
    hide Reaches, Shape, ArmedRange, FinishedRange, TwoLeft;
    InShape(j, b, s);
    var lo, hi := StageAt(j, k).lo, StageAt(j, k).hi;
    var s1, s2;
    c, s1 := ArmAll(j, b, s, lo, hi, {q});
    ArmedWait(j, s, s1, lo, hi, {q}, {p, q});
    c, s2 := WaitFor(j, c, s1, POLL_INTERVAL);
    InShape(j, c, s2);
    c, s' := FinishAll(j, c, s2, lo, hi, {p, q});
    InShape(j, c, s');
    TwoAreLeft(j, s, s1, s2, s', k, p, q);
  }

  lemma ArmedWait(j: Job, s: State, s1: State, lo: nat, hi: nat, skip: set<nat>, more: set<nat>)
    requires Shape(j, s) && hi <= |s.members| && ArmedRange(j, s, s1, lo, hi, skip) && skip <= more
    ensures forall r :: Within(r, lo, hi, more) ==> s1.members[r] == Waiting(s.now, s.now + POLL_INTERVAL)
    ensures |s1.members| == |s.members| && s1.now == s.now && s1.deadline == s.deadline && s1.ctxDone == s.ctxDone
  {
    assert forall r :: Within(r, lo, hi, more) ==> Within(r, lo, hi, skip);
  }

  lemma TwoAreLeft(j: Job, s: State, s1: State, s2: State, s': State, k: nat, p: nat, q: nat)
    requires Begun(j, s, k, 0) && Shape(j, s2) && Shape(j, s')
    requires StageAt(j, k).lo <= p < q < StageAt(j, k).hi && j.targets[p] == j.targets[q]
    requires ArmedRange(j, s, s1, StageAt(j, k).lo, StageAt(j, k).hi, {q}) && s2 == s1.(now := s.now + POLL_INTERVAL)
    requires FinishedRange(j, s2, s', StageAt(j, k).lo, StageAt(j, k).hi, {p, q})
    ensures TwoLeft(j, s', k, p, q) && s'.deadline == s.deadline
  {
    assert Within(p, StageAt(j, k).lo, StageAt(j, k).hi, {q});
    RecordsOfOthers(j, s, s1, s2, s', k, p, q);
  }

  lemma RecordsOfOthers(j: Job, s: State, s1: State, s2: State, s': State, k: nat, p: nat, q: nat)
    requires Shape(j, s) && Shape(j, s2) && Shape(j, s') && k < |j.plan| && DoneBelow(j, s, StageAt(j, k).lo)
    requires ResetsBelow(s.log, StageAt(j, k).lo) && StageAt(j, k).lo <= p < q < StageAt(j, k).hi
    requires j.targets[p] == j.targets[q]
    requires ArmedRange(j, s, s1, StageAt(j, k).lo, StageAt(j, k).hi, {q})
    requires s2 == s1.(now := s2.now) && FinishedRange(j, s2, s', StageAt(j, k).lo, StageAt(j, k).hi, {p, q})
    ensures forall r :: StageAt(j, k).lo <= r < StageAt(j, k).hi && r != p && r != q ==> s'.members[r] == Returned(true)
    ensures forall r :: 0 <= r < StageAt(j, k).hi && j.targets[r] != j.targets[q] ==>
              s'.results[j.targets[r]].status.Completed?
    ensures Reset(q) !in s'.log && ResetsBelow(s'.log, StageAt(j, k).hi)
  {
    var lo, hi := StageAt(j, k).lo, StageAt(j, k).hi;
    assert forall r :: lo <= r < hi && r != p && r != q ==> Within(r, lo, hi, {p, q});
    forall r | 0 <= r < hi && j.targets[r] != j.targets[q] ensures s'.results[j.targets[r]].status.Completed? {
      if r < lo && s1.results[j.targets[r]] != s.results[j.targets[r]] {
        var o :| Within(o, lo, hi, {q}) && j.targets[o] == j.targets[r];
        assert Within(o, lo, hi, {p, q});
      } else if lo <= r {
        assert Within(r, lo, hi, {p, q});
      }
    }
    forall i | 0 <= i < |s'.log| && s'.log[i].Reset? ensures s'.log[i].p < hi && s'.log[i].p != q {
      if i < |s.log| {
        assert s'.log[i] == s.log[i];
      } else {
        assert i < |s1.log| && s'.log[i] == s1.log[i];
      }
    }
  }

  lemma MarkOne(j: Job, b: Behaviour, s: State, p: nat) returns (c: Behaviour, s': State)
    requires Reaches(j, b, s) && Shape(j, s) && p < |s.members| && s.members[p].Marking?
    ensures Reaches(j, c, s') && GoesOn(b, c)
    ensures s' == s.(members := s.members[p := Returned(true)],
                     results := s.results[j.targets[p] := Marked(s.results[j.targets[p]], s.now)],
                     log := s.log + [Finished(p, true)])
  {
    hide Reaches, Enabled, Do;
    DoMark(j, s, p);
    c := Take(j, b, s, Member(p, Mark));
    s' := Do(j, s, Member(p, Mark));
  }

  /** The first position reads its agent's report, the second resets the record, the first completes it
      again, and the second takes that for its own. */
  lemma TellOne(j: Job, b: Behaviour, s: State, k: nat, p: nat, q: nat)
    returns (c: Behaviour, s': State, sent: Event)
    requires Reaches(j, b, s) && TwoLeft(j, s, k, p, q) && s.now + POLL_INTERVAL <= s.deadline
    ensures Reaches(j, c, s') && GoesOn(b, c) && Shape(j, s) && Shape(j, s')
    ensures s'.now == s.now + POLL_INTERVAL && s'.deadline == s.deadline && s'.ctl == s.ctl && s'.ctxDone == s.ctxDone
    ensures s'.members == s.members[p := Returned(true)][q := Returned(true)]
    ensures s'.results.Keys == s.results.Keys && s'.results[j.targets[q]].status.Completed?
    ensures forall id :: id in s.results && id != j.targets[q] ==> s'.results[id] == s.results[id]
    ensures sent.Sent? && s'.log == s.log + [Reported(j.targets[p], DeploymentState.Completed)] +
                                    [Reset(q), sent] + [Finished(p, true)] + [Finished(q, true)]
  {
    hide Reaches, Shape;
    InShape(j, b, s);
    c, s' := ReportAndPoll(j, b, s, p);
    InShape(j, c, s');
    c := ArmOne(j, c, s', q);
    SpawnedInPlan(j, s', q);
    sent := Sent(q, s'.members[q].k, j.targets[q], j.version, StageAt(j, s'.members[q].k).position,
                 StageAt(j, s'.members[q].k).total);
    s' := Armed(j, s', q);
    InShape(j, c, s');
    c, s' := MarkOne(j, c, s', p);
    c, s' := WaitFor(j, c, s', POLL_INTERVAL);
    InShape(j, c, s');
    c, s' := CarryOne(j, c, s', q);
    InShape(j, c, s');
  }

  lemma SpawnedInPlan(j: Job, s: State, q: nat)
    requires Shape(j, s) && q < |s.members| && s.members[q].Spawned?
    ensures s.members[q].k < |j.plan|
  {
  }

  /** Nothing was reported between the reset of `q` and its return. */
  lemma NotTold(j: Job, log: seq<Event>, q: nat, sent: Event, other: Event)
    requires q < |j.targets| && Reset(q) !in log && !sent.Reported? && !other.Reported?
    ensures !ToldInTime(j, log + [Reset(q), sent] + [other] + [Finished(q, true)], q)
  {
    var all := log + [Reset(q), sent] + [other] + [Finished(q, true)];
    assert forall h :: 0 <= h < |log| ==> all[h] == log[h];
    assert forall i :: |log| <= i < |all| ==> !all[i].Reported?;
  }

  lemma LateStage(j: Job, b: Behaviour, s: State, k: nat, p: nat, q: nat) returns (c: Behaviour, s': State)
    requires Reaches(j, b, s) && Along(j, s, k, 0) && k < |j.plan| && InTime(j, POLL_INTERVAL)
    requires StageAt(j, k).lo <= p < q < StageAt(j, k).hi && j.targets[p] == j.targets[q]
    ensures Reaches(j, c, s') && GoesOn(b, c) && Along(j, s', k + 1, POLL_INTERVAL)
    ensures q < |j.targets| && Finished(q, true) in s'.log && !ToldInTime(j, s'.log, q)
  {
    hide Reaches, Shape;
    ElapsedGrows(j.plan, k + 1, |j.plan|);
    var s1, s2, s3;
    c, s1 := BeginStage(j, b, s, k, 0);
    c, s2 := LeaveTwo(j, c, s1, k, p, q);
    var sent;
    c, s3, sent := TellOne(j, c, s2, k, p, q);
    LateDone(j, s2, s3, k, p, q, sent);
    c, s' := LeaveStage(j, c, s3, k, POLL_INTERVAL);
  }

  lemma LateDone(j: Job, s: State, s': State, k: nat, p: nat, q: nat, sent: Event)
    requires TwoLeft(j, s, k, p, q) && Shape(j, s')
    requires s'.now == s.now + POLL_INTERVAL && s'.deadline == s.deadline && s'.ctl == s.ctl && s'.ctxDone == s.ctxDone
    requires s'.members == s.members[p := Returned(true)][q := Returned(true)]
    requires s'.results[j.targets[q]].status.Completed?
    requires forall id :: id in s.results && id != j.targets[q] ==> s'.results[id] == s.results[id]
    requires sent.Sent? && s'.log == s.log + [Reported(j.targets[p], DeploymentState.Completed)] +
                                     [Reset(q), sent] + [Finished(p, true)] + [Finished(q, true)]
    ensures AllDone(j, s', k, POLL_INTERVAL)
    ensures q < |j.targets| && Finished(q, true) in s'.log && !ToldInTime(j, s'.log, q)
  {
    NotTold(j, s.log + [Reported(j.targets[p], DeploymentState.Completed)], q, sent, Finished(p, true));
    assert s'.log[|s'.log| - 1] == Finished(q, true);
    forall i | 0 <= i < |s'.log| && s'.log[i].Reset? ensures s'.log[i].p < StageAt(j, k).hi {
      assert i < |s.log| ==> s'.log[i] == s.log[i];
    }
    forall r | 0 <= r < StageAt(j, k).hi ensures s'.results[j.targets[r]].status.Completed? {
      assert j.targets[r] in TargetSet(j);
    }
  }

  /** A deployment with a target twice in one batch, and one poll to spare, has a completed run in which
      the agent of one of the two positions never said so in its time. */
  lemma TwiceMeansUntold(j: Job, s0: State, k: nat, p: nat, q: nat) returns (b: Behaviour)
    requires Init(j, s0) && InTime(j, POLL_INTERVAL) && k < |j.plan|
    requires StageAt(j, k).lo <= p < q < StageAt(j, k).hi && j.targets[p] == j.targets[q]
    ensures CompletedRun(j, s0, b) && !ToldInTime(j, Last(b).log, q)
  {
    hide Init, Along;
    var s, s1, s2, c, d;
    c, s := HappyStart(j, s0, k);
    c, s1 := LateStage(j, c, s, k, p, q);
    d, s2 := HappyRest(j, c, s1, k + 1, POLL_INTERVAL);
    b := CompletesFrom(j, d, s2, POLL_INTERVAL);
    AtEnd(j, c, s1, b);
    LogGrows(j, b, |c.acts|, |b.states| - 1);
    UntoldStays(j, s1.log, Last(b).log, q, true);
  }

  lemma AtEnd(j: Job, c: Behaviour, s: State, b: Behaviour)
    requires Reaches(j, c, s) && GoesOn(c, b) && IsRun(j, b)
    ensures |c.acts| < |b.states| && b.states[|c.acts|] == s && b.states != [] && c.states[0] == b.states[0]
  {
  }

  /** Completed means that every target's own agent said so in its time, exactly when no batch holds a
      target twice; for every deployment whose batches cover its targets, with one poll to spare. */
  lemma EveryoneIsToldIff(j: Job, s0: State)
    requires Init(j, s0) && !s0.row.RowCompleted? && InTime(j, POLL_INTERVAL)
    requires Frontier(j.plan, |j.plan|) == |j.targets|
    ensures (forall b, p: nat :: CompletedRun(j, s0, b) && p < |j.targets| ==> ToldInTime(j, Last(b).log, p)) <==>
            DistinctInBatches(j)
  {
    if DistinctInBatches(j) {
      forall b, p: nat | CompletedRun(j, s0, b) && p < |j.targets| ensures ToldInTime(j, Last(b).log, p) {
        CompletedMeansTold(j, b, |b.states| - 1, p);
      }
    } else {
      var k, p, q :| 0 <= k < |j.plan| && j.plan[k].lo <= p < q < j.plan[k].hi <= |j.targets| &&
        j.targets[p] == j.targets[q];
      var b := TwiceMeansUntold(j, s0, k, p, q);
    }
  }
}
