/** What a run makes of its records, said in terms of its history alone: the final judgement, the snapshot
    of a rollback and the events it leads to, and the gate behind the canary. */
module RunnerVerdicts {
  import opened HubTypes
  import opened DeploymentPlan
  import opened RunnerModel
  import opened RunnerSafety
  import opened RunnerHistory
  import opened RunnerRollback
  import opened RunnerTheorems
  import opened RunnerRecords

  /** Positions whose batch succeeded have been spoken about. */
  lemma SettledHaveSpoken(j: Job, b: Behaviour, n: nat, p: nat)
    requires IsRun(j, b) && n < |b.states| && p < b.states[n].settled
    ensures p < |j.targets| && !Silent(j, b.states[n].log, j.targets[p])
  {
    SafeRun(j, b, n);
    var s := b.states[n];
    assert s.members[p] == Returned(true);
    assert Finished(p, true) in s.log;
    var i :| 0 <= i < |s.log| && s.log[i] == Finished(p, true);
    assert Subject(j, s.log[i]) == Some(j.targets[p]);
  }

  // ----- the final judgement

  /** A run counts as failed only after a batch failed or its context was done. */
  ghost predicate FailedForCause(s: State) {
    s.ctl == Ending(true) ==> s.failedStage.Some? || s.ctxDone
  }

  lemma CauseAction(j: Job, s: State, a: Action)
    requires Shape(j, s) && Layout(j, s) && Enabled(j, s, a) && FailedForCause(s)
    ensures FailedForCause(Do(j, s, a))
  {
    match a
    case Around(o) =>
    case Member(p, step) => LayoutStep(j, s, p, step);
    case Runner(move) => CauseMove(j, s, move);
  }

  lemma CauseMove(j: Job, s: State, move: Move)
    requires Shape(j, s) && Layout(j, s) && MoveEnabled(j, s, move) && FailedForCause(s)
    ensures FailedForCause(DoMove(j, s, move))
  {
  }

  lemma {:induction false} CauseRun(j: Job, b: Behaviour, n: nat)
    requires IsRun(j, b) && n < |b.states|
    ensures FailedForCause(b.states[n])
  {
    if n > 0 {
      CauseRun(j, b, n - 1);
      SafeRun(j, b, n - 1);
      assert Takes(j, b.states[n - 1], b.acts[n - 1], b.states[n]);
      CauseAction(j, b.states[n - 1], b.acts[n - 1]);
    }
  }

  lemma JudgeTakes(j: Job, s: State, s': State)
    requires Takes(j, s, Runner(Judge), s')
    ensures s.ctl.Ending? && s'.ctl.Writing? && s'.log == s.log + [Decided(s'.ctl.status)]
    ensures s'.ctl.status == RowCompleted || s'.ctl.status == RowFailed
    ensures s'.ctl.status == RowCompleted <==>
            !s.ctl.failed && forall id :: id in s.results ==> s.results[id].status == Completed
  {
  }

  /** The final judgement, from the history alone. A run that has not failed decides on completed exactly
      if every target was last heard of completing; every other run decides on failed. A run has failed
      only if a batch failed or its context was done, and has otherwise seen every batch succeed. */
  lemma DecidedByHistory(j: Job, b: Behaviour, m: nat)
    requires IsRun(j, b) && m < |b.acts| && b.acts[m] == Runner(Judge)
    ensures var s, s' := b.states[m], b.states[m + 1];
            && s.ctl.Ending? && s'.ctl.Writing? && s'.log == s.log + [Decided(s'.ctl.status)]
            && (s'.ctl.status == RowCompleted || s'.ctl.status == RowFailed)
            && (s'.ctl.status == RowCompleted <==>
                !s.ctl.failed && forall p :: 0 <= p < |j.targets| ==> Complete(j, b.states[0], s.log, j.targets[p]))
            && (if s.ctl.failed then s.failedStage.Some? || s.ctxDone
                else s.failedStage == None && s.settled == Frontier(j.plan, |j.plan|))
  {
    hide Complete;
    var s, s' := b.states[m], b.states[m + 1];
    assert Takes(j, s, b.acts[m], s');
    JudgeTakes(j, s, s');
    CauseRun(j, b, m);
    SafeRun(j, b, m);
    hide Safe, Takes;
    TargetsHaveRecords(j, b, m);
    AllCompletedIffSaid(j, b, m, j.targets);
  }

  /** When the batches reach every target, each has been heard of by then: completed is decided exactly
      if the last word on every target is its completion. */
  lemma CompletedIffLastWords(j: Job, b: Behaviour, m: nat)
    requires IsRun(j, b) && m < |b.acts| && b.acts[m] == Runner(Judge)
    requires Frontier(j.plan, |j.plan|) == |j.targets|
    ensures b.states[m].ctl.Ending?
    ensures !b.states[m].ctl.failed ==>
              (Decided(RowCompleted) in b.states[m + 1].log <==>
               forall p :: 0 <= p < |j.targets| ==> SaidCompleted(j, b.states[m].log, j.targets[p]))
  {
    DecidedByHistory(j, b, m);
    var s := b.states[m];
    SafeRun(j, b, m);
    hide Safe;
    if !s.ctl.failed {
      forall p | 0 <= p < |j.targets|
        ensures Complete(j, b.states[0], s.log, j.targets[p]) <==> SaidCompleted(j, s.log, j.targets[p])
      {
        SettledHaveSpoken(j, b, m, p);
      }
    }
  }

  // ----- the snapshot of a rollback

  lemma SnapshotTakes(j: Job, s: State, order: seq<Id>, s': State)
    requires Takes(j, s, Runner(Snapshot(order)), s')
    ensures |s'.log| == |s.log| + 1 && s'.log[..|s.log|] == s.log && s'.log[|s.log|].Snapshotted?
    ensures forall id :: id in s'.log[|s.log|].ids <==> id in s.results && s.results[id].status == Completed
    ensures NoDuplicates(order) && forall id :: id in order <==> id in s'.log[|s.log|].ids
    ensures s.ctl.RollingBack?
    ensures s'.ctl == if order == [] || j.version <= 1 then Ending(true) else LookingUp(s.ctl.k, order)
  {
    var ids := CompletedIds(s.results);
    assert s'.log == s.log + [Snapshotted(ids)];
  }

  /** The snapshot holds exactly the targets last heard of completing, and the run goes on to the version
      before its own with each of them once; it ends at once if there is none, or no such version. */
  lemma SnapshotByHistory(j: Job, b: Behaviour, m: nat, order: seq<Id>)
    requires IsRun(j, b) && m < |b.acts| && b.acts[m] == Runner(Snapshot(order))
    ensures var s, s' := b.states[m], b.states[m + 1];
            && |s'.log| == |s.log| + 1 && s'.log[..|s.log|] == s.log && s'.log[|s.log|].Snapshotted?
            && (forall id :: id in s'.log[|s.log|].ids <==> id in j.targets && Complete(j, b.states[0], s.log, id))
            && NoDuplicates(order) && (forall id :: id in order <==> id in s'.log[|s.log|].ids)
            && s.ctl.RollingBack?
            && s'.ctl == if order == [] || j.version <= 1 then Ending(true) else LookingUp(s.ctl.k, order)
  {
    var s, s' := b.states[m], b.states[m + 1];
    assert Takes(j, s, b.acts[m], s');
    SnapshotTakes(j, s, order, s');
    hide Complete, Takes;
    TargetsHaveRecords(j, b, 0);
    TargetsHaveRecords(j, b, m);
    forall id | id in j.targets
      ensures id in s.results && (s.results[id].status == Completed <==> Complete(j, b.states[0], s.log, id))
    {
      CompletedIffSaid(j, b, m, id);
    }
  }

  /** Whoever is sent a rollback event was last heard of completing when the snapshot was taken. */
  lemma RevertedWasComplete(j: Job, b: Behaviour, n: nat, i: nat) returns (snap: nat)
    requires IsRun(j, b) && n < |b.states| && HealthRollsBack(j)
    requires i < |b.states[n].log| && b.states[n].log[i].Reverted?
    ensures snap < n && b.acts[snap].Runner? && b.acts[snap].move.Snapshot?
    ensures b.states[snap].log <= b.states[n].log && |b.states[snap].log| < i
    ensures b.states[n].log[i].id in j.targets
    ensures Complete(j, b.states[0], b.states[snap].log, b.states[n].log[i].id)
  {
    var send: nat;
    snap, send := RollbackExact(j, b, n, i);
    LogGrows(j, b, snap, n);
    var id := b.states[n].log[i].id;
    hide Complete, IsRun, HealthRollsBack;
    TargetsHaveRecords(j, b, 0);
    TargetsHaveRecords(j, b, snap);
    CompletedIffSaid(j, b, snap, id);
  }

  // ----- the events of a rollback

  /** At action `t` the loop over the snapshot comes to the instance, and sends its event if the send goes
      through. */
  ghost predicate TurnOf(j: Job, b: Behaviour, t: nat, id: Id)
    requires t < |b.acts| && |b.states| == |b.acts| + 1
  {
    var s, s' := b.states[t], b.states[t + 1];
    && b.acts[t].Runner? && b.acts[t].move.Revert? && s.ctl.Reverting? && s.ctl.todo != [] && s.ctl.todo[0] == id
    && (if b.acts[t].move.delivered then id in s.subscribed && s'.log == s.log + [Reverted(id, j.version - 1)]
        else s'.log == s.log)
  }

  ghost predicate HadTurn(j: Job, b: Behaviour, m: nat, n: nat, id: Id)
    requires n <= |b.acts| && |b.states| == |b.acts| + 1
  {
    exists t :: m < t < n && TurnOf(j, b, t, id)
  }

  lemma RevertTakes(j: Job, s: State, delivered: bool, s': State)
    requires Takes(j, s, Runner(Revert(delivered)), s')
    ensures s.ctl.Reverting?
    ensures s'.ctl == if s.ctl.todo == [] then Ending(true) else Reverting(s.ctl.k, s.ctl.todo[1..])
    ensures if delivered then s.ctl.todo != [] && s.ctl.todo[0] in s.subscribed &&
                              s'.log == s.log + [Reverted(s.ctl.todo[0], j.version - 1)]
            else s'.log == s.log
  {
  }

  /** How a rollback is entered, goes on and is left. */
  ghost predicate RollbackGoesOn(ctl: Control, a: Action, ctl': Control) {
    && (ctl.Reverting? ==> ctl' == ctl || (a.Runner? && a.move.Revert?))
    && (ctl'.LookingUp? ==> ctl' == ctl || (a.Runner? && a.move.Snapshot? && ctl'.todo == a.move.order))
    && (ctl'.Reverting? ==> ctl.Reverting? || (ctl.LookingUp? && ctl'.todo == ctl.todo))
  }

  lemma MoveGoesOn(j: Job, s: State, move: Move)
    requires Shape(j, s) && MoveEnabled(j, s, move)
    ensures RollbackGoesOn(s.ctl, Runner(move), DoMove(j, s, move).ctl)
  {
  }

  lemma RollbackTakes(j: Job, s: State, a: Action, s': State)
    requires Takes(j, s, a, s')
    ensures RollbackGoesOn(s.ctl, a, s'.ctl)
  {
    hide RollbackGoesOn;
    match a
    case Around(o) => StaysPut(s.ctl, a);
    case Member(p, step) => StepMovesOne(j, s, p, step); StaysPut(s.ctl, a);
    case Runner(move) => MoveGoesOn(j, s, move);
  }

  lemma StaysPut(ctl: Control, a: Action)
    ensures RollbackGoesOn(ctl, a, ctl)
  {
  }

  lemma SnapshotOnce(j: Job, s: State, h: nat, i: nat)
    requires RevertsJustified(j, s) && h <= i < |s.log| && s.log[h].Snapshotted? && s.log[i].Snapshotted?
    ensures h == i
  {
  }

  lemma SnapshotStays(j: Job, b: Behaviour, m: nat, n: nat)
    requires IsRun(j, b) && m < n < |b.states| && b.acts[m].Runner? && b.acts[m].move.Snapshot?
    ensures |b.states[m].log| < |b.states[n].log| && b.states[n].log[|b.states[m].log|].Snapshotted?
  {
    SnapshotByHistory(j, b, m, b.acts[m].move.order);
    LogGrows(j, b, m + 1, n);
  }

  lemma RevertsRun(j: Job, b: Behaviour, n: nat)
    requires IsRun(j, b) && n < |b.states| && HealthRollsBack(j)
    ensures RevertsJustified(j, b.states[n])
  {
    SafeRun(j, b, n);
  }

  lemma OneSnapshot(j: Job, b: Behaviour, m: nat, n: nat)
    requires IsRun(j, b) && m <= n < |b.acts| && HealthRollsBack(j)
    requires b.acts[m].Runner? && b.acts[m].move.Snapshot? && b.acts[n].Runner? && b.acts[n].move.Snapshot?
    ensures m == n
  {
    SnapshotStays(j, b, m, n + 1);
    SnapshotStays(j, b, n, n + 1);
    if m < n { SnapshotStays(j, b, m, n); }
    RevertsRun(j, b, n + 1);
    hide IsRun, Layout, RevertsJustified;
    SnapshotOnce(j, b.states[n + 1], |b.states[m].log|, |b.states[n].log|);
  }

  /** The snapshot is what the lookup is made for. */
  lemma {:induction false} OrderKept(j: Job, b: Behaviour, m: nat, order: seq<Id>, n: nat)
    requires IsRun(j, b) && m < n < |b.states| && HealthRollsBack(j)
    requires b.acts[m] == Runner(Snapshot(order)) && b.states[n].ctl.LookingUp?
    ensures b.states[n].ctl.todo == order
  {
    hide Takes;
    assert Takes(j, b.states[n - 1], b.acts[n - 1], b.states[n]);
    RollbackTakes(j, b.states[n - 1], b.acts[n - 1], b.states[n]);
    SnapshotByHistory(j, b, m, order);
    if b.acts[n - 1].Runner? && b.acts[n - 1].move.Snapshot? {
      OneSnapshot(j, b, m, n - 1);
    } else {
      OrderKept(j, b, m, order, n - 1);
    }
  }

  /** While events are being sent, everyone in the snapshot has had a turn or is still to come. */
  lemma {:induction false} TurnsSoFar(j: Job, b: Behaviour, m: nat, order: seq<Id>, n: nat)
    requires IsRun(j, b) && m < n < |b.states| && HealthRollsBack(j)
    requires b.acts[m] == Runner(Snapshot(order)) && b.states[n].ctl.Reverting?
    ensures forall id :: id in order ==> id in b.states[n].ctl.todo || HadTurn(j, b, m, n, id)
  {
    hide Takes;
    var s, a := b.states[n - 1], b.acts[n - 1];
    assert Takes(j, s, a, b.states[n]);
    RollbackTakes(j, s, a, b.states[n]);
    SnapshotByHistory(j, b, m, order);
    if s.ctl.LookingUp? {
      OrderKept(j, b, m, order, n - 1);
    } else {
      TurnsSoFar(j, b, m, order, n - 1);
      TurnTaken(j, b, m, n);
    }
  }

  lemma TurnTaken(j: Job, b: Behaviour, m: nat, n: nat)
    requires IsRun(j, b) && m < n - 1 && n < |b.states| && b.states[n - 1].ctl.Reverting?
    ensures forall id :: HadTurn(j, b, m, n - 1, id) ==> HadTurn(j, b, m, n, id)
    ensures forall id :: id in b.states[n - 1].ctl.todo ==>
              (b.states[n].ctl.Reverting? && id in b.states[n].ctl.todo) || HadTurn(j, b, m, n, id)
  {
    hide Takes;
    var s, a, s' := b.states[n - 1], b.acts[n - 1], b.states[n];
    assert Takes(j, s, a, s');
    RollbackTakes(j, s, a, s');
    if a.Runner? && a.move.Revert? {
      RevertTakes(j, s, a.move.delivered, s');
      if s.ctl.todo != [] {
        assert TurnOf(j, b, n - 1, s.ctl.todo[0]);
        assert s.ctl.todo == [s.ctl.todo[0]] + s.ctl.todo[1..];
      }
    }
  }

  /** Once events have been sent for a snapshot and the sending is over, everyone in it has had a turn, at
      which the event was sent if the instance was subscribed and the send went through. */
  lemma {:induction false} EveryoneHasATurn(j: Job, b: Behaviour, m: nat, order: seq<Id>, r: nat, n: nat, id: Id)
    requires IsRun(j, b) && m < r <= n < |b.states| && HealthRollsBack(j)
    requires b.acts[m] == Runner(Snapshot(order)) && id in order
    requires b.states[r].ctl.Reverting? && !b.states[n].ctl.Reverting?
    ensures HadTurn(j, b, m, n, id)
  {
    if b.states[n - 1].ctl.Reverting? {
      TurnsSoFar(j, b, m, order, n - 1);
      TurnTaken(j, b, m, n);
    } else {
      EveryoneHasATurn(j, b, m, order, r, n - 1, id);
    }
  }

  /** So every target last heard of completing when the snapshot was taken is sent its event, if it is
      subscribed at its turn and the send goes through. */
  lemma CompletedGetTheirTurn(j: Job, b: Behaviour, m: nat, r: nat, n: nat, id: Id)
    requires IsRun(j, b) && m < r <= n < |b.states| && HealthRollsBack(j)
    requires b.acts[m].Runner? && b.acts[m].move.Snapshot?
    requires id in j.targets && Complete(j, b.states[0], b.states[m].log, id)
    requires b.states[r].ctl.Reverting? && !b.states[n].ctl.Reverting?
    ensures HadTurn(j, b, m, n, id)
  {
    SnapshotByHistory(j, b, m, b.acts[m].move.order);
    EveryoneHasATurn(j, b, m, b.acts[m].move.order, r, n, id);
  }

  // ----- the gate behind the canary

  lemma HealthTakes(j: Job, s: State, s': State)
    requires Takes(j, s, Runner(CheckHealth), s')
    ensures s.ctl.HealthCheck? && s.ctl.k < |j.plan| && j.plan[s.ctl.k].lo <= j.plan[s.ctl.k].hi <= |j.targets|
    ensures s'.log == s.log
    ensures var k := s.ctl.k;
            if forall p :: j.plan[k].lo <= p < j.plan[k].hi ==>
                 j.targets[p] in s.results && s.results[j.targets[p]].status == Completed
            then s'.ctl == AtStage(k + 1) && s'.failedStage == s.failedStage
            else s'.ctl == RollingBack(k) && s'.failedStage == Some(k)
  {
    var k := s.ctl.k;
    var ids := j.targets[StageAt(j, k).lo..StageAt(j, k).hi];
    if Healthy(s.results, ids) {
      forall p | j.plan[k].lo <= p < j.plan[k].hi
        ensures j.targets[p] in s.results && s.results[j.targets[p]].status == Completed
      {
        assert ids[p - j.plan[k].lo] == j.targets[p];
      }
    }
  }

  /** The health check, from the history alone: the run goes on exactly if the last word on every target of
      the batch is its completion; otherwise the batch has failed and is rolled back. */
  lemma CheckedByHistory(j: Job, b: Behaviour, m: nat)
    requires IsRun(j, b) && m < |b.acts| && b.acts[m] == Runner(CheckHealth)
    ensures var s, s' := b.states[m], b.states[m + 1];
            && s.ctl.HealthCheck? && s.ctl.k < |j.plan| && j.plan[s.ctl.k].hi <= |j.targets|
            && if AllSaidCompleted(j, s.log, j.plan[s.ctl.k])
               then s'.ctl == AtStage(s.ctl.k + 1) && s'.failedStage == None
               else s'.ctl == RollingBack(s.ctl.k) && s'.failedStage == Some(s.ctl.k)
  {
    var s, s' := b.states[m], b.states[m + 1];
    assert Takes(j, s, b.acts[m], s');
    HealthTakes(j, s, s');
    SafeRun(j, b, m);
    hide Safe, Takes, SaidCompleted, Complete;
    TargetsHaveRecords(j, b, 0);
    forall p | j.plan[s.ctl.k].lo <= p < j.plan[s.ctl.k].hi
      ensures j.targets[p] in s.results
      ensures s.results[j.targets[p]].status == Completed <==> SaidCompleted(j, s.log, j.targets[p])
    {
      SettledHaveSpoken(j, b, m, p);
      CompletedIffSaid(j, b, m, j.targets[p]);
    }
  }

  /** The last word on every target of the batch is its completion. */
  ghost predicate AllSaidCompleted(j: Job, log: seq<Event>, stage: Stage)
    requires stage.hi <= |j.targets|
  {
    forall p :: stage.lo <= p < stage.hi ==> SaidCompleted(j, log, j.targets[p])
  }

  /** The run has got to a batch behind batch `k`. */
  ghost predicate Behind(j: Job, s: State, k: nat)
    requires k < |j.plan|
  {
    s.spawned > j.plan[k].hi ||
    match s.ctl
    case AtStage(i) => i > k
    case InStage(i) => i > k
    case Settled(i) => i > k
    case Paused(i, _) => i > k
    case HealthCheck(i) => i > k
    case _ => false
  }

  /** Action `m` is the health check of batch `k`, and found it healthy. */
  ghost predicate PassedAt(j: Job, b: Behaviour, k: nat, m: nat)
    requires m < |b.acts| && |b.states| == |b.acts| + 1 && k < |j.plan| && j.plan[k].hi <= |j.targets|
  {
    b.acts[m] == Runner(CheckHealth) && b.states[m].ctl == HealthCheck(k) && b.states[m + 1].ctl == AtStage(k + 1)
    && AllSaidCompleted(j, b.states[m].log, j.plan[k])
  }

  lemma BehindBegin(j: Job, s: State, k: nat)
    requires Shape(j, s) && Layout(j, s) && s.ctl.AtStage? && k < |j.plan| && !Behind(j, s, k)
    ensures !Behind(j, DoBegin(j, s), k)
  {
    if s.ctl.k < |j.plan| {
      assert StageAt(j, s.ctl.k).hi == Frontier(j.plan, s.ctl.k + 1);
      FrontierGrows(j, s.ctl.k + 1, k + 1);
    }
  }

  /** Nothing but its health check leads behind a batch that is checked. */
  lemma BehindMove(j: Job, s: State, move: Move, k: nat)
    requires Shape(j, s) && Layout(j, s) && MoveEnabled(j, s, move)
    requires k < |j.plan| && j.plan[k].pause.Some? && j.plan[k].checksHealth
    requires !Behind(j, s, k) && Behind(j, DoMove(j, s, move), k)
    ensures move.CheckHealth? && s.ctl == HealthCheck(k) && DoMove(j, s, move).ctl == AtStage(k + 1)
  {
    if move.Begin? { BehindBegin(j, s, k); }
  }

  lemma BehindAction(j: Job, s: State, a: Action, s': State, k: nat)
    requires Takes(j, s, a, s') && Layout(j, s)
    requires k < |j.plan| && j.plan[k].pause.Some? && j.plan[k].checksHealth
    requires !Behind(j, s, k) && Behind(j, s', k)
    ensures a == Runner(CheckHealth) && s.ctl == HealthCheck(k) && s'.ctl == AtStage(k + 1)
  {
    match a
    case Around(o) =>
    case Member(p, step) => StepMovesOne(j, s, p, step);
    case Runner(move) => BehindMove(j, s, move, k);
  }

  /** A run that has got behind a batch that is checked has found it healthy. */
  lemma {:induction false} GateWasPassed(j: Job, b: Behaviour, n: nat, k: nat) returns (m: nat)
    requires IsRun(j, b) && n < |b.states| && k < |j.plan| && j.plan[k].pause.Some? && j.plan[k].checksHealth
    requires Behind(j, b.states[n], k)
    ensures m < n && j.plan[k].hi <= |j.targets| && PassedAt(j, b, k, m)
  {
    if n > 0 && Behind(j, b.states[n - 1], k) {
      m := GateWasPassed(j, b, n - 1, k);
    } else if n > 0 {
      m := n - 1;
      SafeRun(j, b, m);
      assert Takes(j, b.states[m], b.acts[m], b.states[n]);
      hide Safe, Behind;
      BehindAction(j, b.states[m], b.acts[m], b.states[n], k);
      CheckedByHistory(j, b, m);
    }
  }

  /** How many targets a canary deployment of at least two tries first. */
  function Canaries(c: Config): nat {
    if |c.targets| < 20 then 1 else |c.targets| / 10
  }

  lemma CanaryIsGated(c: Config)
    requires WellTyped(c) && c.strategy.Canary? && |c.targets| >= 2
    ensures HealthRollsBack(JobOf(c))
    ensures |JobOf(c).plan| > 0 && JobOf(c).plan[0].lo == 0 && JobOf(c).plan[0].hi == Canaries(c)
    ensures JobOf(c).plan[0].pause == Some(c.timing.canaryDelay) && JobOf(c).plan[0].checksHealth
    ensures forall k :: 0 < k < |JobOf(c).plan| ==> !JobOf(c).plan[k].checksHealth
  {
    PlansRollBackAfterHealth(c);
    var plan := Plan(c);
    forall k | 0 < k < |plan|
      ensures !plan[k].checksHealth
    {
      assert plan[k] == RollingStages(c, CanarySize(|c.targets|), 1, false)[k - 1];
      RollingStageBounds(c, CanarySize(|c.targets|), 1, false, k - 1);
    }
  }

  /** The last word on every canary target is its completion. */
  ghost predicate CanariesComplete(c: Config, log: seq<Event>)
    requires WellTyped(c)
  {
    forall p :: 0 <= p < Canaries(c) && p < |c.targets| ==> SaidCompleted(JobOf(c), log, c.targets[p])
  }

  /** Some position at or behind `p` was sent to. */
  ghost predicate SentBeyond(log: seq<Event>, p: nat) {
    exists i :: 0 <= i < |log| && log[i].Sent? && log[i].p >= p
  }

  /** A goroutine for a target behind the canary is started, and its event sent, only after a health check
      at which the last word on every canary target was its completion. */
  lemma BeyondCanaryOnlyHealthy(c: Config, b: Behaviour, n: nat) returns (m: nat)
    requires WellTyped(c) && c.strategy.Canary? && |c.targets| >= 2
    requires IsRun(JobOf(c), b) && n < |b.states|
    requires b.states[n].spawned > Canaries(c) || SentBeyond(b.states[n].log, Canaries(c))
    ensures m < n && b.acts[m] == Runner(CheckHealth) && CanariesComplete(c, b.states[m].log)
  {
    var j := JobOf(c);
    CanaryIsGated(c);
    if SentBeyond(b.states[n].log, Canaries(c)) { SentWasSpawned(j, b, n, Canaries(c)); }
    hide Plan, SaidCompleted;
    m := GateWasPassed(j, b, n, 0);
  }

  lemma SentWasSpawned(j: Job, b: Behaviour, n: nat, p: nat)
    requires IsRun(j, b) && n < |b.states| && SentBeyond(b.states[n].log, p)
    ensures b.states[n].spawned > p
  {
    SafeRun(j, b, n);
    var i :| 0 <= i < |b.states[n].log| && b.states[n].log[i].Sent? && b.states[n].log[i].p >= p;
    assert SentInOrder(j, b.states[n], i);
  }

  /** Only the canary is checked. */
  lemma CanaryIsChecked(c: Config, b: Behaviour, m: nat)
    requires WellTyped(c) && c.strategy.Canary? && |c.targets| >= 2
    requires IsRun(JobOf(c), b) && m < |b.acts| && b.acts[m] == Runner(CheckHealth)
    ensures b.states[m].ctl == HealthCheck(0)
  {
    CanaryIsGated(c);
    CheckedByHistory(JobOf(c), b, m);
    SafeRun(JobOf(c), b, m);
    assert HealthPhase(JobOf(c), b.states[m]);
  }

  lemma FailedCanaryIsAll(c: Config, b: Behaviour, m: nat, n: nat)
    requires WellTyped(c) && c.strategy.Canary? && |c.targets| >= 2
    requires IsRun(JobOf(c), b) && m <= n < |b.states| && b.states[m].failedStage == Some(0)
    ensures !SentBeyond(b.states[n].log, Canaries(c))
  {
    CanaryIsGated(c);
    forall i | 0 <= i < |b.states[n].log| && b.states[n].log[i].Sent?
      ensures b.states[n].log[i].p < Canaries(c)
    {
      BlastRadius(JobOf(c), b, m, n, 0, i);
    }
  }

  /** The health check of a canary deployment decides by the last words on the canary targets: either all
      of them are completions and the second batch is next, or the canary has failed, is rolled back, and
      no other target is ever sent to, whatever follows. */
  lemma CanaryIsJudged(c: Config, b: Behaviour, m: nat, n: nat)
    requires WellTyped(c) && c.strategy.Canary? && |c.targets| >= 2
    requires IsRun(JobOf(c), b) && m < n < |b.states| && b.acts[m] == Runner(CheckHealth)
    ensures if CanariesComplete(c, b.states[m].log)
            then b.states[m + 1].ctl == AtStage(1) && b.states[m + 1].failedStage == None
            else b.states[m + 1].ctl == RollingBack(0) && b.states[m + 1].failedStage == Some(0)
                 && !SentBeyond(b.states[n].log, Canaries(c))
  {
    hide Plan, SaidCompleted;
    CanaryIsGated(c);
    CanaryIsChecked(c, b, m);
    CheckedByHistory(JobOf(c), b, m);
    if b.states[m + 1].failedStage == Some(0) {
      FailedCanaryIsAll(c, b, m + 1, n);
    }
  }
}
