/** The guarantees of a deployment run, for every interleaving and every prefix of it. */
module RunnerTheorems {
  import opened HubTypes
  import opened DeploymentPlan
  import opened RunnerModel
  import opened RunnerSafety
  import opened RunnerHistory
  import opened RunnerRollback
  import opened RunnerTiming
  import opened RunnerTold

  /** Everything that holds in every state of every run; `before` is the row at the start. */
  ghost predicate Safe(j: Job, before: DeploymentStatus, s: State) {
    && Shape(j, s) && Layout(j, s)
    && ReturnsRecorded(s) && SendsInOrder(j, s) && WaitersSent(s)
    && CompletionsHeard(j, s)
    && (HealthRollsBack(j) ==> Rollbacks(j, s))
    && Deciding(s) && RowHonest(before, s) && DecisionCovered(j, s)
    && Clock(j, before, s)
  }

  lemma SafeInit(j: Job, s: State)
    requires Init(j, s)
    ensures Safe(j, s.row, s)
  {
  }

  lemma SafeAction(j: Job, before: DeploymentStatus, s: State, a: Action)
    requires Safe(j, before, s) && Enabled(j, s, a)
    ensures Safe(j, before, Do(j, s, a))
  {
    LayoutAction(j, s, a);
    ReturnsAction(j, s, a);
    SendsAction(j, s, a);
    WaitersAction(j, s, a);
    CompletionsAction(j, s, a);
    if HealthRollsBack(j) { RollbackAction(j, s, a); }
    DecidingAction(j, s, a);
    RowAction(j, before, s, a);
    CoveredAction(j, s, a);
    ClockAction(j, before, s, a);
  }

  /** Every state of every run is safe. */
  lemma {:induction false} SafeRun(j: Job, b: Behaviour, n: nat)
    requires IsRun(j, b) && n < |b.states|
    ensures Safe(j, b.states[0].row, b.states[n])
  {
    if n == 0 {
      SafeInit(j, b.states[0]);
    } else {
      SafeRun(j, b, n - 1);
      assert Takes(j, b.states[n - 1], b.acts[n - 1], b.states[n]);
      SafeAction(j, b.states[0].row, b.states[n - 1], b.acts[n - 1]);
    }
  }

  // ----- concurrency

  /** The positions [lo, hi). */
  ghost function Interval(lo: nat, hi: nat): (r: set<nat>)
    requires lo <= hi
    ensures |r| == hi - lo
    ensures forall p: nat :: p in r <==> lo <= p < hi
  {
    if lo == hi then {} else Interval(lo, hi - 1) + {hi - 1}
  }

  lemma SubsetSize(a: set<nat>, b: set<nat>)
    requires a <= b
    ensures |a| <= |b|
  {
    assert b == a + (b - a);
  }

  ghost function InFlightPositions(s: State): set<nat> {
    set p: nat | p < |s.members| && InFlight(s.members[p])
  }

  /** At no instant of any run are more instances between being notified and having their
      deployment return than the widest batch of the plan. */
  lemma InFlightBound(j: Job, b: Behaviour, n: nat, width: nat)
    requires IsRun(j, b) && n < |b.states|
    requires forall k :: 0 <= k < |j.plan| ==> j.plan[k].hi - j.plan[k].lo <= width
    ensures |InFlightPositions(b.states[n])| <= width
  {
    SafeRun(j, b, n);
    var s := b.states[n];
    if s.ctl.InStage? {
      var stage := StageAt(j, s.ctl.k);
      assert InFlightPositions(s) <= Interval(stage.lo, stage.hi);
      SubsetSize(InFlightPositions(s), Interval(stage.lo, stage.hi));
    } else {
      assert InFlightPositions(s) == {};
    }
  }

  /** The widest batch is the batch size for rolling, the larger of canary and batch size for
      canary, the whole fleet for all-at-once. */
  lemma InFlightWithinWidth(c: Config, b: Behaviour, n: nat)
    requires WellTyped(c) && IsRun(JobOf(c), b) && n < |b.states|
    ensures var size, fleet := if c.batchSize <= 0 then 1 else c.batchSize, |c.targets|;
            var width := match c.strategy
              case AllAtOnce => fleet
              case Canary => if fleet < 2 then fleet else if size < fleet / 10 then fleet / 10 else size
              case _ => size;
            |InFlightPositions(b.states[n])| <= width
  {
    PlanTiles(c);
    InFlightBound(JobOf(c), b, n, Width(c));
  }

  /** No event of a batch is sent before every member of every earlier batch has returned
      success; every event names its target, the deployed version and its batch; no position
      gets two. */
  lemma BatchesInOrder(j: Job, b: Behaviour, n: nat, i: nat)
    requires IsRun(j, b) && n < |b.states|
    requires i < |b.states[n].log| && b.states[n].log[i].Sent?
    ensures var log := b.states[n].log;
            var e := log[i];
            && e.k < |j.plan| && j.plan[e.k].lo <= e.p < j.plan[e.k].hi <= |j.targets|
            && e.id == j.targets[e.p] && e.version == j.version
            && e.position == j.plan[e.k].position && e.total == j.plan[e.k].total
            && (forall q :: 0 <= q < j.plan[e.k].lo ==> Before(log, Finished(q, true), i))
            && (forall h :: 0 <= h < |log| && h != i && log[h].Sent? ==> log[h].p != e.p)
  {
    SafeRun(j, b, n);
    assert SentInOrder(j, b.states[n], i);
  }

  /** The history records the deploy events and no others: each one was sent by its goroutine, to an
      instance that was subscribed, and a send that goes through is recorded. */
  lemma SentWasDelivered(j: Job, b: Behaviour, n: nat, i: nat) returns (m: nat)
    requires IsRun(j, b) && n < |b.states| && i < |b.states[n].log| && b.states[n].log[i].Sent?
    ensures m < n && b.acts[m] == Member(b.states[n].log[i].p, Notify(true)) && |b.states[m].log| == i
    ensures b.states[n].log[i].id in b.states[m].subscribed
  {
    m := Origin(j, b, n, i);
    OnlyNotifySends(j, b.states[m], b.acts[m]);
  }

  lemma DeliveredIsSent(j: Job, b: Behaviour, m: nat, p: nat)
    requires IsRun(j, b) && m < |b.acts| && b.acts[m] == Member(p, Notify(true))
    ensures p < |j.targets| && |b.states[m + 1].log| == |b.states[m].log| + 1
    ensures b.states[m + 1].log[..|b.states[m].log|] == b.states[m].log
    ensures var e := b.states[m + 1].log[|b.states[m].log|];
            e.Sent? && e.p == p && e.id == j.targets[p] && e.version == j.version
  {
    assert Takes(j, b.states[m], b.acts[m], b.states[m + 1]);
  }

  /** The history only grows. */
  lemma {:induction false} LogGrows(j: Job, b: Behaviour, m: nat, n: nat)
    requires IsRun(j, b) && m <= n < |b.states|
    ensures b.states[m].log <= b.states[n].log
  {
    if m < n {
      LogGrows(j, b, m, n - 1);
      assert Takes(j, b.states[n - 1], b.acts[n - 1], b.states[n]);
    }
  }

  // ----- blast radius

  /** Once stage `k` has failed, it stays the failed stage for the rest of the run. */
  lemma {:induction false} FailurePersists(j: Job, b: Behaviour, m: nat, n: nat)
    requires IsRun(j, b) && m <= n < |b.states| && b.states[m].failedStage.Some?
    ensures b.states[n].failedStage == b.states[m].failedStage
  {
    if m < n {
      FailurePersists(j, b, m, n - 1);
      SafeRun(j, b, n - 1);
      assert Takes(j, b.states[n - 1], b.acts[n - 1], b.states[n]);
      FailureStays(j, b.states[n - 1], b.acts[n - 1]);
    }
  }

  /** If stage `k` fails, no target behind it ever receives the version, however the run goes
      on and whatever was sent before. */
  lemma BlastRadius(j: Job, b: Behaviour, m: nat, n: nat, k: nat, i: nat)
    requires IsRun(j, b) && m <= n < |b.states| && b.states[m].failedStage == Some(k)
    requires i < |b.states[n].log| && b.states[n].log[i].Sent?
    ensures k < |j.plan| && j.plan[k].hi <= |j.targets|
    ensures b.states[n].log[i].p < j.plan[k].hi
    ensures b.states[n].log[i].id in j.targets[..j.plan[k].hi]
  {
    FailurePersists(j, b, m, n);
    SafeRun(j, b, n);
    var s := b.states[n];
    assert FailureIsLast(j, s) && SentInOrder(j, s, i);
    var hi := StageAt(j, k).hi;
    assert j.targets[..hi][s.log[i].p] == s.log[i].id;
  }

  /** How far that is: min(n, (k + 1) * batch size) for batch `k` of a rolling deployment, a
      tenth of the fleet but at least one for the canary stage. */
  lemma RadiusOfStage(c: Config, k: nat)
    requires WellTyped(c) && k < |Plan(c)|
    ensures c.strategy.Rolling? || c.strategy.Unrecognised? ==>
              var reach := (k + 1) * if c.batchSize <= 0 then 1 else c.batchSize;
              Plan(c)[k].hi == if reach < |c.targets| then reach else |c.targets|
    ensures c.strategy.Canary? && |c.targets| >= 2 && k == 0 ==>
              Plan(c)[k].hi == if |c.targets| / 10 > 1 then |c.targets| / 10 else 1
  {
    if c.strategy.Rolling? || c.strategy.Unrecognised? {
      RollingStageBounds(c, 0, 0, true, k);
      MulSuccessor(k, EffectiveSize(c.batchSize));
      assert Plan(c) == RollingStages(c, 0, 0, true);
      hide Plan, RollingStages;
    }
  }

  // ----- completion

  /** Every history entry was added by an action of the run. */
  lemma {:induction false} Origin(j: Job, b: Behaviour, n: nat, i: nat) returns (m: nat)
    requires IsRun(j, b) && n < |b.states| && i < |b.states[n].log|
    ensures m < n && m < |b.acts| && Takes(j, b.states[m], b.acts[m], b.states[m + 1])
    ensures Events(j, b.states[m], b.acts[m]) == [b.states[n].log[i]] && |b.states[m].log| == i
  {
    assert Takes(j, b.states[n - 1], b.acts[n - 1], b.states[n]);
    if i < |b.states[n - 1].log| {
      m := Origin(j, b, n - 1, i);
    } else {
      m := n - 1;
    }
  }

  /** When no batch holds a target twice, every position counts as completed only on the word of its own
      agent, in every state of every run. */
  lemma {:induction false} OwnWordRun(j: Job, b: Behaviour, n: nat, p: nat)
    requires IsRun(j, b) && n < |b.states| && p < |j.targets| && DistinctInBatches(j)
    ensures Shape(j, b.states[n]) && OwnWord(j, b.states[n], p)
  {
    if n > 0 {
      OwnWordRun(j, b, n - 1, p);
      SafeRun(j, b, n - 1);
      assert Takes(j, b.states[n - 1], b.acts[n - 1], b.states[n]);
      OwnAction(j, b.states[n - 1], b.acts[n - 1], p);
    }
  }

  /** A run that turns its row into completed has, if its batches cover the targets, sent its
      event to every target, and every target's agent has reported completion after a reset of
      that instance's record: in the time of the target's own goroutine, when no batch holds a target
      twice. */
  lemma CompletedMeansTold(j: Job, b: Behaviour, n: nat, p: nat)
    requires IsRun(j, b) && n < |b.states|
    requires Frontier(j.plan, |j.plan|) == |j.targets|
    requires !b.states[0].row.RowCompleted? && b.states[n].row.RowCompleted?
    requires p < |j.targets|
    ensures SentTo(b.states[n].log, p)
    ensures Heard(j, b.states[n].log, p)
    ensures DistinctInBatches(j) ==> ToldInTime(j, b.states[n].log, p)
  {
    SafeRun(j, b, n);
    var s := b.states[n];
    assert s.settled == |j.targets|;
    assert s.members[p] == Returned(true);
    assert CompletionHeard(j, s, p);
    if DistinctInBatches(j) {
      OwnWordRun(j, b, n, p);
    }
  }

  /** For a deployment row, the batches cover the targets unless their count overflowed. */
  lemma CompletedDeploymentMeansTold(c: Config, b: Behaviour, n: nat, p: nat)
    requires WellTyped(c) && BatchesFit(c) && DistinctInBatches(JobOf(c))
    requires IsRun(JobOf(c), b) && n < |b.states|
    requires !b.states[0].row.RowCompleted? && b.states[n].row.RowCompleted?
    requires p < |c.targets|
    ensures SentTo(b.states[n].log, p) && ToldInTime(JobOf(c), b.states[n].log, p)
  {
    PlanCovers(c);
    CompletedMeansTold(JobOf(c), b, n, p);
  }

  /** The completed status is decided in a state in which every record is completed and every
      stage of the plan has succeeded. */
  lemma CompletedWasJudged(j: Job, b: Behaviour, n: nat) returns (m: nat)
    requires IsRun(j, b) && n < |b.states|
    requires !b.states[0].row.RowCompleted? && b.states[n].row.RowCompleted?
    ensures m < n && m < |b.acts| && b.acts[m] == Runner(Judge)
    ensures var s := b.states[m];
            && (forall id :: id in s.results ==> s.results[id].status == Completed)
            && (forall p :: 0 <= p < |j.targets| ==> j.targets[p] in s.results)
            && s.ctl == Ending(false) && s.failedStage == None && s.settled == Frontier(j.plan, |j.plan|)
  {
    SafeRun(j, b, n);
    var s := b.states[n];
    assert RowHonest(b.states[0].row, s);
    var i :| 0 <= i < |s.log| && s.log[i] == Decided(RowCompleted);
    m := Origin(j, b, n, i);
    SafeRun(j, b, m);
    JudgedCompleted(j, b.states[m], b.acts[m]);
  }

  lemma JudgedCompleted(j: Job, s: State, a: Action)
    requires Shape(j, s) && Layout(j, s) && Enabled(j, s, a)
    requires Events(j, s, a) == [Decided(RowCompleted)]
    ensures a == Runner(Judge) && s.ctl == Ending(false)
    ensures forall id :: id in s.results ==> s.results[id].status == Completed
    ensures forall p :: 0 <= p < |j.targets| ==> j.targets[p] in s.results
    ensures s.failedStage == None && s.settled == Frontier(j.plan, |j.plan|)
  {
    assert forall p :: 0 <= p < |j.targets| ==> j.targets[p] in TargetSet(j);
  }

  ghost function Last(b: Behaviour): State
    requires b.states != []
  {
    b.states[|b.states| - 1]
  }

  ghost function Extend(b: Behaviour, j: Job, a: Action): (b': Behaviour)
    requires IsRun(j, b) && Shape(j, Last(b)) && Enabled(j, Last(b), a)
    ensures IsRun(j, b') && b'.acts == b.acts + [a] && b.states <= b'.states && Last(b') == Do(j, Last(b), a)
  {
    Behaviour(b.states + [Do(j, Last(b), a)], b.acts + [a])
  }

  // ----- rollback

  /** A rollback event names a version the deployment replaced, and goes at most once to an
      instance that was completed when the snapshot was taken and is subscribed when the event
      is sent; some stage that rolls back has failed by then. */
  lemma RollbackExact(j: Job, b: Behaviour, n: nat, i: nat) returns (snap: nat, send: nat)
    requires IsRun(j, b) && n < |b.states| && HealthRollsBack(j)
    requires i < |b.states[n].log| && b.states[n].log[i].Reverted?
    ensures var log := b.states[n].log;
            && log[i].version == j.version - 1 >= 1
            && (forall h :: 0 <= h < |log| && h != i && log[h].Reverted? ==> log[h].id != log[i].id)
    ensures exists k :: 0 <= k < |j.plan| && b.states[n].failedStage == Some(k) && j.plan[k].rollsBack
    ensures snap < send < n && b.acts[snap].Runner? && b.acts[snap].move.Snapshot?
    ensures |b.states[snap].log| < i == |b.states[send].log|
    ensures var id, results := b.states[n].log[i].id, b.states[snap].results;
            id in results && results[id].status == Completed
    ensures b.acts[send] == Runner(Revert(true)) && b.states[n].log[i].id in b.states[send].subscribed
  {
    SafeRun(j, b, n);
    var s := b.states[n];
    assert RevertJustified(j, s, i);
    var h :| 0 <= h < i && h < |s.log| && s.log[h].Snapshotted? && s.log[i].id in s.log[h].ids;
    snap := Origin(j, b, n, h);
    SnapshotEvent(j, b.states[snap], b.acts[snap], s.log[h]);
    send := Origin(j, b, n, i);
    RevertEvent(j, b.states[send], b.acts[send], s.log[i]);
    if send <= snap { LogGrows(j, b, send, snap); }
  }

  lemma SnapshotEvent(j: Job, s: State, a: Action, e: Event)
    requires Shape(j, s) && Enabled(j, s, a) && Events(j, s, a) == [e] && e.Snapshotted?
    ensures a.Runner? && a.move.Snapshot?
    ensures forall id :: id in e.ids <==> id in s.results && s.results[id].status == Completed
  {
  }

  lemma RevertEvent(j: Job, s: State, a: Action, e: Event)
    requires Shape(j, s) && Enabled(j, s, a) && Events(j, s, a) == [e] && e.Reverted?
    ensures a == Runner(Revert(true)) && e.id in s.subscribed
  {
  }

  lemma PlansRollBackAfterHealth(c: Config)
    requires WellTyped(c)
    ensures HealthRollsBack(JobOf(c))
    ensures forall k :: 0 <= k < |Plan(c)| ==>
              (Plan(c)[k].rollsBack <==> !(c.strategy.AllAtOnce? || (c.strategy.Canary? && |c.targets| < 2)))
  {
    var plan := Plan(c);
    forall k | 0 <= k < |plan|
      ensures plan[k].checksHealth ==> plan[k].rollsBack
      ensures plan[k].rollsBack <==> !(c.strategy.AllAtOnce? || (c.strategy.Canary? && |c.targets| < 2))
    {
      if c.strategy.Rolling? || c.strategy.Unrecognised? {
        RollingStageBounds(c, 0, 0, true, k);
      } else if c.strategy.Canary? && |c.targets| >= 2 && k > 0 {
        assert plan[k] == RollingStages(c, CanarySize(|c.targets|), 1, false)[k - 1];
        RollingStageBounds(c, CanarySize(|c.targets|), 1, false, k - 1);
      }
    }
  }

  /** Deployments that never roll back: version 1, all-at-once, and canary on fewer than two
      targets. */
  lemma NeverRollsBack(c: Config, b: Behaviour, n: nat)
    requires WellTyped(c) && IsRun(JobOf(c), b) && n < |b.states|
    requires c.version <= 1 || c.strategy.AllAtOnce? || (c.strategy.Canary? && |c.targets| < 2)
    ensures NothingReverted(b.states[n].log)
  {
    PlansRollBackAfterHealth(c);
    forall i | 0 <= i < |b.states[n].log|
      ensures !b.states[n].log[i].Reverted?
    {
      if b.states[n].log[i].Reverted? {
        var snap, send := RollbackExact(JobOf(c), b, n, i);
      }
    }
  }

  ghost predicate NothingReverted(log: seq<Event>) {
    forall i :: 0 <= i < |log| ==> !log[i].Reverted?
  }

  /** The context is done and the previous version has not been looked up: no event will follow. */
  ghost predicate Barred(s: State) {
    && s.ctxDone && NothingReverted(s.log)
    && (s.ctl.RollingBack? || s.ctl.LookingUp? || s.ctl.Ending? || s.ctl.Writing? || s.ctl.Exited?)
  }

  lemma BarredMove(j: Job, s: State, move: Move)
    requires Shape(j, s) && Barred(s) && MoveEnabled(j, s, move)
    ensures Barred(Do(j, s, Runner(move)))
  {
  }

  lemma BarredAction(j: Job, s: State, a: Action)
    requires Shape(j, s) && Layout(j, s) && Barred(s) && Enabled(j, s, a)
    ensures Barred(Do(j, s, a))
  {
    match a
    case Around(o) =>
    case Member(p, step) => LayoutStep(j, s, p, step);
    case Runner(move) => BarredMove(j, s, move);
  }

  /** A rollback that starts after the context is done sends nothing, ever. */
  lemma {:induction false} NoRollbackOnceDone(j: Job, b: Behaviour, m: nat, n: nat)
    requires IsRun(j, b) && m <= n < |b.states| && HealthRollsBack(j)
    requires b.states[m].ctl.RollingBack? && b.states[m].ctxDone
    ensures Barred(b.states[n]) && NothingReverted(b.states[n].log)
  {
    if m == n {
      SafeRun(j, b, m);
    } else {
      NoRollbackOnceDone(j, b, m, n - 1);
      SafeRun(j, b, n - 1);
      assert Takes(j, b.states[n - 1], b.acts[n - 1], b.states[n]);
      BarredAction(j, b.states[n - 1], b.acts[n - 1]);
    }
  }

  // ----- the row

  lemma RowAfterDone(j: Job, s: State, a: Action)
    requires Shape(j, s) && Enabled(j, s, a) && s.ctxDone
    ensures Do(j, s, a).ctxDone
    ensures !a.Around? ==> Do(j, s, a).row == s.row
    ensures Do(j, s, a).row == s.row || Do(j, s, a).row.RowCancelled?
  {
    match a
    case Around(o) =>
    case Member(p, step) => StepKeepsRow(j, s, p, step);
    case Runner(move) => MoveWrites(j, s, move); MoveKeepsTime(j, s, move);
  }

  /** Once the run context is done no later step of the run changes the row, so a cancelled row
      stays cancelled whatever follows. */
  lemma {:induction false} CancelledStays(j: Job, b: Behaviour, m: nat, n: nat)
    requires IsRun(j, b) && m <= n < |b.states| && b.states[m].ctxDone
    ensures b.states[n].ctxDone
    ensures b.states[n].row == b.states[m].row || b.states[n].row.RowCancelled?
    ensures m < n && !b.acts[n - 1].Around? ==> b.states[n].row == b.states[n - 1].row
  {
    if m < n {
      CancelledStays(j, b, m, n - 1);
      assert Takes(j, b.states[n - 1], b.acts[n - 1], b.states[n]);
      RowAfterDone(j, b.states[n - 1], b.acts[n - 1]);
    }
  }

  /** Every batch that has yet to begin looks at the context first. */
  ghost predicate Guarded(j: Job, s: State) {
    forall k :: 0 <= k < |j.plan| && s.spawned < StageAt(j, k).hi ==> StageAt(j, k).checksContext
  }

  /** Once the context is done no further batch begins, in a run whose remaining batches check it. */
  lemma {:induction false} NothingBeginsOnceDone(j: Job, b: Behaviour, m: nat, n: nat)
    requires IsRun(j, b) && m <= n < |b.states| && b.states[m].ctxDone && Guarded(j, b.states[m])
    ensures b.states[n].spawned == b.states[m].spawned
  {
    if m < n {
      NothingBeginsOnceDone(j, b, m, n - 1);
      CancelledStays(j, b, m, n - 1);
      SafeRun(j, b, n - 1);
      assert Takes(j, b.states[n - 1], b.acts[n - 1], b.states[n]);
      BeginsOnlyLive(j, b.states[n - 1], b.acts[n - 1]);
    }
  }

  lemma BeginsOnlyLive(j: Job, s: State, a: Action)
    requires Shape(j, s) && Layout(j, s) && Enabled(j, s, a) && s.ctxDone && Guarded(j, s)
    ensures Do(j, s, a).spawned == s.spawned
  {
    match a
    case Around(o) =>
    case Member(p, step) => StepMovesOne(j, s, p, step);
    case Runner(move) => if !move.Begin? { MoveKeepsMembers(j, s, move); }
  }

  /** After a cancellation or timeout has reached the run, no target behind the batches already begun
      ever receives the version. */
  lemma NothingSentBeyondOnceDone(j: Job, b: Behaviour, m: nat, n: nat, i: nat)
    requires IsRun(j, b) && m <= n < |b.states| && b.states[m].ctxDone && Guarded(j, b.states[m])
    requires i < |b.states[n].log| && b.states[n].log[i].Sent?
    ensures b.states[n].log[i].p < b.states[m].spawned <= |j.targets|
  {
    NothingBeginsOnceDone(j, b, m, n);
    SafeRun(j, b, n);
    assert SentInOrder(j, b.states[n], i);
  }

  /** Rolling deployments are guarded from the start, canaries from their first batch on. */
  lemma PlansAreGuarded(c: Config, s: State)
    requires WellTyped(c)
    requires c.strategy.Rolling? || c.strategy.Unrecognised? ||
             (c.strategy.Canary? && |c.targets| >= 2 && s.spawned >= CanarySize(|c.targets|))
    ensures Guarded(JobOf(c), s)
  {
    var plan := Plan(c);
    forall k | 0 <= k < |plan| && s.spawned < plan[k].hi
      ensures plan[k].checksContext
    {
      if c.strategy.Rolling? || c.strategy.Unrecognised? {
        RollingStageBounds(c, 0, 0, true, k);
      } else if k > 0 {
        assert plan[k] == RollingStages(c, CanarySize(|c.targets|), 1, false)[k - 1];
        RollingStageBounds(c, CanarySize(|c.targets|), 1, false, k - 1);
      }
    }
  }

  /** A run decides at most one status. */
  lemma OneDecision(j: Job, b: Behaviour, n: nat, h: nat, i: nat)
    requires IsRun(j, b) && n < |b.states| && h < |b.states[n].log| && i < |b.states[n].log|
    requires b.states[n].log[h].Decided? && b.states[n].log[i].Decided?
    ensures h == i
  {
    SafeRun(j, b, n);
  }

  /** What is being written is what was decided. */
  lemma WritingWasDecided(j: Job, b: Behaviour)
    requires IsRun(j, b) && Last(b).ctl.Writing?
    ensures Decided(RowCompleted) in Last(b).log <==> Last(b).ctl.status.RowCompleted?
  {
    SafeRun(j, b, |b.states| - 1);
  }

  lemma NothingDecidedAtStart(j: Job, b: Behaviour)
    requires IsRun(j, b) && Last(b).ctl.Entering?
    ensures Decided(RowCompleted) !in Last(b).log
  {
    SafeRun(j, b, |b.states| - 1);
  }

  /** After the run has exited, only its surroundings still act. */
  lemma ExitedIsFinal(j: Job, b: Behaviour, n: nat)
    requires IsRun(j, b) && n < |b.acts| && b.states[n].ctl.Exited?
    ensures b.acts[n].Around? && b.states[n + 1].ctl.Exited?
  {
    SafeRun(j, b, n);
    assert Takes(j, b.states[n], b.acts[n], b.states[n + 1]);
    if b.acts[n].Member? {
      LayoutStep(j, b.states[n], b.acts[n].p, b.acts[n].step);
    }
  }

  // ----- time

  lemma {:induction false} DeadlineFixed(j: Job, b: Behaviour, n: nat)
    requires IsRun(j, b) && n < |b.states|
    ensures b.states[n].deadline == b.states[0].deadline
  {
    if n > 0 {
      DeadlineFixed(j, b, n - 1);
      var s := b.states[n - 1];
      assert Takes(j, s, b.acts[n - 1], b.states[n]);
      match b.acts[n - 1]
      case Around(o) =>
      case Member(p, step) => StepKeepsRow(j, s, p, step);
      case Runner(move) => MoveKeepsTime(j, s, move);
    }
  }

  /** A run that completes its row did so inside the deadline, and took at least the polls and
      pauses of its plan. */
  lemma CompletedTookTime(j: Job, b: Behaviour, n: nat)
    requires IsRun(j, b) && n < |b.states|
    requires !b.states[0].row.RowCompleted? && b.states[n].row.RowCompleted?
    ensures Elapsed(j.plan, |j.plan|) <= j.timing.timeout
    ensures b.states[n].now - b.states[0].now >= Elapsed(j.plan, |j.plan|)
  {
    SafeRun(j, b, n);
    DeadlineFixed(j, b, n);
  }

  lemma RollingLimit(t: nat)
    requires t * POLL_INTERVAL + Pauses(t, t, t) * DEFAULT_TIMING.batchDelay <= DEFAULT_TIMING.timeout
    ensures t <= 19
  {
  }

  lemma CanaryLimit(t: nat)
    requires POLL_INTERVAL + DEFAULT_TIMING.canaryDelay + t * POLL_INTERVAL
             + Pauses(t, t, t) * DEFAULT_TIMING.batchDelay <= DEFAULT_TIMING.timeout
    ensures t <= 17
  {
  }

  /** With the hub's timings a rolling deployment of more than 19 batches, or a canary
      deployment with more than 17 batches after the canary, never completes. */
  lemma DefaultTimingsLimitBatches(c: Config, b: Behaviour, n: nat)
    requires WellTyped(c) && c.timing == DEFAULT_TIMING && |c.targets| > 0
    requires IsRun(JobOf(c), b) && n < |b.states|
    requires !b.states[0].row.RowCompleted? && b.states[n].row.RowCompleted?
    ensures c.strategy.Rolling? || c.strategy.Unrecognised? ==> |Plan(c)| <= 19
    ensures c.strategy.Canary? && |c.targets| >= 2 ==> |Plan(c)| - 1 <= 17
  {
    CompletedTookTime(JobOf(c), b, n);
    if c.strategy.Rolling? || c.strategy.Unrecognised? {
      RollingElapsed(c);
      RollingLimit(|Plan(c)|);
    } else if c.strategy.Canary? && |c.targets| >= 2 {
      CanaryElapsed(c);
      CanaryLimit(|Plan(c)| - 1);
    }
  }
}
