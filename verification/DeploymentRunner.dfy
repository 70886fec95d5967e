/**
  The deployment runner in the shape of its code: shared records changed in place, one method
  per critical section, and the loops of `Run`. Goroutines, agents, timers and cancellation
  act at the points where the code blocks or releases its lock; which of them acts, and how
  often, is left open, up to a budget of observed steps. Every method keeps `Valid`: what has
  happened so far is a run of the step system.
*/
module Deploying {
  import opened HubTypes
  import opened DeploymentPlan
  import opened RunnerModel
  import opened RunnerTheorems

  /** How a blocking call ended; `Stopped` when the budget ran out before it did. */
  datatype Result = Success | Error | Stopped

  datatype ProgressCounts = ProgressCounts(
    totalInstances: nat, completedInstances: nat, failedInstances: nat, currentBatch: int, totalBatches: int)

  /** The branches of the select in the polling loop. */
  datatype Branch = OnDone | OnTimeout | OnTick

  class DeploymentRunner {
    const job: Job
    var budget: nat

    // shared with agents and goroutines
    var results: map<Id, InstanceResult>
    var members: seq<Routine>
    var progress: Option<ProgressCounts>

    // the world around the run
    var now: nat
    var deadline: nat
    var row: DeploymentStatus
    var pendingCancels: nat
    var cancelRequested: bool
    var parentDone: bool
    var ctxDone: bool
    var subscribed: set<Id>

    // specification
    ghost var ctl: Control
    ghost var settled: nat
    ghost var spawned: nat
    ghost var failedStage: Option<nat>
    ghost var log: seq<Event>
    ghost var run: Behaviour

    ghost function Abs(): State
      reads this
    {
      State(now, deadline, ctl, members, results, settled, spawned, failedStage, row, pendingCancels,
            cancelRequested, parentDone, ctxDone, subscribed, log)
    }

    /** `later` goes on where `earlier` stopped. */
    static ghost predicate Continues(earlier: Behaviour, later: Behaviour) {
      earlier.acts <= later.acts && earlier.states <= later.states
    }

    /** Everything done so far is a run of the step system, and led to this state. */
    ghost predicate Valid()
      reads this
    {
      IsRun(job, run) && Last(run) == Abs() && Shape(job, Abs())
    }

    /** Every target starts out pending. */
    constructor (c: Config, steps: nat, start: nat, status: DeploymentStatus, connected: set<Id>)
      requires WellTyped(c)
      ensures Valid() && job == JobOf(c) && budget == steps && ctl == Entering && run.acts == []
      ensures forall i :: 0 <= i < |c.targets| ==> results[c.targets[i]] == PENDING_RESULT
      ensures row == status && now == start && deadline == start + c.timing.timeout && subscribed == connected
      ensures !ctxDone && log == []
    {
      job, budget := JobOf(c), steps;
      results, progress := map[], None;
      members := seq(|c.targets|, _ => Idle);
      now, deadline := start, start + c.timing.timeout;
      row, pendingCancels, cancelRequested, parentDone, ctxDone := status, 0, false, false, false;
      subscribed := connected;
      ctl, settled, spawned, failedStage, log := Entering, 0, 0, None, [];
      run := Behaviour([], []);
      new;
      for i := 0 to |c.targets|
        invariant job == JobOf(c) && budget == steps && ctl == Entering && settled == spawned == 0
        invariant failedStage == None && log == [] && !ctxDone
        invariant members == seq(|c.targets|, _ => Idle)
        invariant row == status && now == start && deadline == start + c.timing.timeout && subscribed == connected
        invariant results.Keys == set k | 0 <= k < i :: c.targets[k]
        invariant forall id :: id in results ==> results[id] == PENDING_RESULT
      {
        results := results[c.targets[i] := PENDING_RESULT];
      }
      assert results.Keys == TargetSet(JobOf(c));
      run := Behaviour([Abs()], []);
    }

    /** Records that action `a` led from `s` to the present state. */
    ghost method Record(s: State, a: Action)
      requires IsRun(job, run) && Last(run) == s
      requires Shape(job, s) && Enabled(job, s, a)
      requires Abs() == Effect(job, s, a).(log := s.log)
      modifies this`log, this`run
      ensures Valid() && Abs() == Do(job, s, a) && run.acts == old(run.acts) + [a] && old(run.states) <= run.states
    {
      run := Extend(run, job, a);
      log := log + Events(job, s, a);
    }

    // ----- critical sections of one goroutine

    method ResetRecord(p: nat)
      requires Valid() && p < |members| && members[p].Spawned?
      modifies this`results, this`members, this`log, this`run
      ensures Valid() && Continues(old(run), run) && run.acts == old(run.acts) + [Member(p, Step.ResetRecord)]
      ensures Abs() == Do(job, old(Abs()), Member(p, Step.ResetRecord))
      ensures members == old(members)[p := Checking(old(members[p].k))]
      ensures results == old(results)[job.targets[p] := InstanceResult(InProgress, Some(now), None, Some(now), NoMessage)]
    {
      hide IsRun;
      ghost var s := Abs();
      results := results[job.targets[p] := FreshLease(now)];
      members := members[p := Checking(members[p].k)];
      Record(s, Member(p, Step.ResetRecord));
    }

    /** `IsInstanceSubscribed`, then the early return of an instance that is not connected. */
    method CheckSubscribed(p: nat)
      requires Valid() && p < |members| && members[p].Checking?
      modifies this`members, this`log, this`run
      ensures Valid() && Continues(old(run), run) && run.acts == old(run.acts) + [Member(p, Step.CheckSubscribed)]
      ensures Abs() == Do(job, old(Abs()), Member(p, Step.CheckSubscribed))
      ensures members == old(members)[p := if job.targets[p] in subscribed then Notifying(old(members[p].k))
                                           else Failing(false, NotConnected)]
    {
      ghost var s := Abs();
      if job.targets[p] in subscribed {
        members := members[p := Notifying(members[p].k)];
      } else {
        members := members[p := Failing(false, NotConnected)];
      }
      Record(s, Member(p, Step.CheckSubscribed));
    }

    /** The send of the deploy event; it fails when the channel is gone or full. */
    method NotifyDeployment(p: nat, delivered: bool)
      requires Valid() && p < |members| && members[p].Notifying?
      requires delivered ==> job.targets[p] in subscribed
      modifies this`members, this`log, this`run
      ensures Valid() && Continues(old(run), run) && run.acts == old(run.acts) + [Member(p, Step.Notify(delivered))]
      ensures Abs() == Do(job, old(Abs()), Member(p, Step.Notify(delivered)))
      ensures members == old(members)[p := if delivered then Notified else Failing(false, NotDelivered)]
    {
      ghost var s := Abs();
      members := members[p := if delivered then Notified else Failing(false, NotDelivered)];
      Record(s, Member(p, Step.Notify(delivered)));
    }

    /** Timeout and ticker of the polling loop. */
    method ArmTimers(p: nat)
      requires Valid() && p < |members| && members[p].Notified?
      modifies this`members, this`log, this`run
      ensures Valid() && Continues(old(run), run) && run.acts == old(run.acts) + [Member(p, Step.Arm)]
      ensures Abs() == Do(job, old(Abs()), Member(p, Step.Arm))
      ensures members == old(members)[p := Waiting(now, now + 2_000_000_000)]
    {
      ghost var s := Abs();
      members := members[p := Waiting(now, now + POLL_INTERVAL)];
      Record(s, Member(p, Step.Arm));
    }

    /** One tick of the polling loop. */
    method PollRecord(p: nat)
      requires Valid() && p < |members| && members[p].Waiting? && members[p].nextTick <= now
      modifies this`members, this`log, this`run
      ensures Valid() && Continues(old(run), run) && run.acts == old(run.acts) + [Member(p, Step.Poll)]
      ensures Abs() == Do(job, old(Abs()), Member(p, Step.Poll))
      ensures job.targets[p] in results
      ensures var r, m := results[job.targets[p]], old(members)[p];
              members == old(members)[p :=
                if r.status == InProgress && r.lastStatusAt.Some? && now - r.lastStatusAt.value > job.timing.leaseTimeout
                then Failing(true, LeaseExpired)
                else if r.status == Completed then Marking
                else if r.status == Failed then Failing(true, DeploymentFailed(r.errorMessage))
                else if r.status == RolledBack then Failing(true, InstanceRolledBack)
                else Waiting(m.since, NextTick(m.since, now))]
    {
      hide IsRun, Effect, Enabled;
      ghost var s := Abs();
      PollEffect(job, s, p);
      var r, m := results[job.targets[p]], members[p];
      var next := Waiting(m.since, NextTick(m.since, now));
      if r.lastStatusAt.Some? && r.status.InProgress? && now - r.lastStatusAt.value > job.timing.leaseTimeout {
        next := Failing(true, LeaseExpired);
      } else if r.status.Completed? {
        next := Marking;
      } else if r.status.Failed? {
        next := Failing(true, DeploymentFailed(r.errorMessage));
      } else if r.status.RolledBack? {
        next := Failing(true, InstanceRolledBack);
      }
      members := members[p := next];
      Record(s, Member(p, Step.Poll));
    }

    /** The polling loop sees its context done. */
    method GiveUp(p: nat)
      requires Valid() && p < |members| && members[p].Waiting? && ctxDone
      modifies this`members, this`log, this`run
      ensures Valid() && Continues(old(run), run) && run.acts == old(run.acts) + [Member(p, Step.GiveUp)]
      ensures Abs() == Do(job, old(Abs()), Member(p, Step.GiveUp))
      ensures members == old(members)[p := Failing(true, ContextDone)]
    {
      ghost var s := Abs();
      members := members[p := Failing(true, ContextDone)];
      Record(s, Member(p, Step.GiveUp));
    }

    /** The polling loop runs out of time. */
    method TimeOut(p: nat)
      requires Valid() && p < |members| && members[p].Waiting? && now >= members[p].since + job.timing.instanceTimeout
      modifies this`members, this`log, this`run
      ensures Valid() && Continues(old(run), run) && run.acts == old(run.acts) + [Member(p, Step.TimeOut)]
      ensures Abs() == Do(job, old(Abs()), Member(p, Step.TimeOut))
      ensures members == old(members)[p := Failing(true, TimedOut)]
    {
      ghost var s := Abs();
      members := members[p := Failing(true, TimedOut)];
      Record(s, Member(p, Step.TimeOut));
    }

    /** The instance is marked completed and its goroutine returns nil. */
    method MarkCompleted(p: nat)
      requires Valid() && p < |members| && members[p].Marking?
      modifies this`results, this`members, this`log, this`run
      ensures Valid() && Continues(old(run), run) && run.acts == old(run.acts) + [Member(p, Step.Mark)]
      ensures Abs() == Do(job, old(Abs()), Member(p, Step.Mark))
      ensures members == old(members)[p := Returned(true)]
      ensures var id := job.targets[p];
              id in old(results) &&
              results == old(results)[id := old(results)[id].(status := Completed, completedAt := Some(now))]
    {
      hide IsRun;
      ghost var s := Abs();
      results := results[job.targets[p] := Marked(results[job.targets[p]], now)];
      members := members[p := Returned(true)];
      Record(s, Member(p, Step.Mark));
    }

    /** The instance is marked failed and its goroutine returns the error. */
    method SetInstanceError(p: nat)
      requires Valid() && p < |members| && members[p].Failing?
      modifies this`results, this`members, this`log, this`run
      ensures Valid() && Continues(old(run), run) && run.acts == old(run.acts) + [Member(p, Step.RecordFailure)]
      ensures Abs() == Do(job, old(Abs()), Member(p, Step.RecordFailure))
      ensures members == old(members)[p := Returned(false)]
      ensures var id, reason := job.targets[p], old(members[p].reason);
              id in old(results) &&
              results == old(results)[id := old(results)[id].(status := Failed, completedAt := Some(now),
                                                              errorMessage := reason)]
    {
      hide IsRun;
      ghost var s := Abs();
      results := results[job.targets[p] := Errored(results[job.targets[p]], now, members[p].reason)];
      members := members[p := Returned(false)];
      Record(s, Member(p, Step.RecordFailure));
    }

    /** The select of the polling loop: the branch that is asked for is taken if it is ready. */
    method Select(p: nat, branch: Branch)
      requires Valid() && p < |members| && members[p].Waiting?
      modifies this`members, this`log, this`run
      ensures Valid() && Continues(old(run), run)
      ensures run.acts == old(run.acts) +
                match branch
                case OnDone => if ctxDone then [Member(p, Step.GiveUp)] else []
                case OnTimeout =>
                  if now >= old(members)[p].since + job.timing.instanceTimeout then [Member(p, Step.TimeOut)] else []
                case OnTick => if now >= old(members)[p].nextTick then [Member(p, Poll)] else []
    {
      hide Valid;
      match branch {
        case OnDone => if ctxDone { GiveUp(p); }
        case OnTimeout => if now >= members[p].since + job.timing.instanceTimeout { TimeOut(p); }
        case OnTick => if now >= members[p].nextTick { PollRecord(p); }
      }
    }

    /** One step of `deployToInstance` for position `p`, if one is possible. */
    method DeployToInstance(p: nat, branch: Branch, delivered: bool)
      requires Valid() && p < |members|
      modifies this`results, this`members, this`log, this`run
      ensures Valid() && Continues(old(run), run)
      ensures var sent := delivered && job.targets[p] in subscribed;
              run.acts == old(run.acts) +
                match old(members)[p]
                case Idle => []
                case Spawned(_) => [Member(p, Step.ResetRecord)]
                case Checking(_) => [Member(p, Step.CheckSubscribed)]
                case Notifying(_) => [Member(p, Notify(sent))]
                case Notified => [Member(p, Arm)]
                case Waiting(since, nextTick) =>
                  (match branch
                   case OnDone => if ctxDone then [Member(p, Step.GiveUp)] else []
                   case OnTimeout => if now >= since + job.timing.instanceTimeout then [Member(p, Step.TimeOut)] else []
                   case OnTick => if now >= nextTick then [Member(p, Poll)] else [])
                case Marking => [Member(p, Mark)]
                case Failing(_, _) => [Member(p, RecordFailure)]
                case Returned(_) => []
    {
      hide IsRun;
      match members[p] {
        case Idle =>
        case Returned(_) =>
        case Spawned(_) => ResetRecord(p);
        case Checking(_) => CheckSubscribed(p);
        case Notifying(_) => NotifyDeployment(p, delivered && job.targets[p] in subscribed);
        case Notified => ArmTimers(p);
        case Waiting(_, _) => Select(p, branch);
        case Marking => MarkCompleted(p);
        case Failing(_, _) => SetInstanceError(p);
      }
    }

    // ----- the world around the run

    /** A status report overwrites the record and renews the lease. */
    method ReportInstanceStatus(id: Id, state: DeploymentState, details: string)
      requires Valid()
      modifies this`results, this`log, this`run
      ensures Valid() && Continues(old(run), run) && run.acts == old(run.acts) + [Around(Report(id, state, details))]
      ensures Abs() == Do(job, old(Abs()), Around(Report(id, state, details)))
      ensures id !in old(results) ==> results == old(results)
      ensures id in old(results) ==>
                var r := old(results)[id];
                var ends := state == Completed || state == Failed || state == RolledBack;
                results == old(results)[id := InstanceResult(
                  state, r.startedAt, if ends then Some(now) else r.completedAt, Some(now),
                  if details == "" then r.errorMessage else Details(details))]
    {
      ghost var s := Abs();
      if id in results {
        results := results[id := ApplyReport(results[id], now, state, details)];
      }
      Record(s, Around(Report(id, state, details)));
    }

    /** `Cancel` cancels the runner's own context; a separate goroutine carries it further. */
    method Cancel()
      requires Valid()
      modifies this`cancelRequested, this`log, this`run
      ensures Valid() && Continues(old(run), run) && run.acts == old(run.acts) + [Around(RequestCancel)]
      ensures cancelRequested && ctxDone == old(ctxDone)
      ensures Abs() == Do(job, old(Abs()), Around(RequestCancel))
    {
      ghost var s := Abs();
      cancelRequested := true;
      Record(s, Around(RequestCancel));
    }

    /** The clock moves, but not past the deadline while the context is live: its timer fires first. */
    method Tick(d: nat)
      requires Valid() && (ctxDone || now + d <= deadline)
      modifies this`now, this`log, this`run
      ensures Valid() && Continues(old(run), run) && run.acts == old(run.acts) + [Around(Elapse(d))]
      ensures Abs() == Do(job, old(Abs()), Around(Elapse(d)))
      ensures now == old(now) + d
    {
      ghost var s := Abs();
      now := now + d;
      Record(s, Around(Elapse(d)));
    }

    /** The run context becomes done. */
    method Fire()
      requires Valid() && (cancelRequested || parentDone || now >= deadline)
      modifies this`ctxDone, this`log, this`run
      ensures Valid() && Continues(old(run), run) && run.acts == old(run.acts) + [Around(FireContext)]
      ensures Abs() == Do(job, old(Abs()), Around(FireContext))
      ensures ctxDone
    {
      ghost var s := Abs();
      ctxDone := true;
      Record(s, Around(FireContext));
    }

    /** The hub shuts down. */
    method StopHub()
      requires Valid()
      modifies this`parentDone, this`log, this`run
      ensures Valid() && Continues(old(run), run) && run.acts == old(run.acts) + [Around(StopParent)]
      ensures Abs() == Do(job, old(Abs()), Around(StopParent))
      ensures parentDone
    {
      ghost var s := Abs();
      parentDone := true;
      Record(s, Around(StopParent));
    }

    /** An agent opens its event stream. */
    method Subscribe(id: Id)
      requires Valid()
      modifies this`subscribed, this`log, this`run
      ensures Valid() && Continues(old(run), run) && run.acts == old(run.acts) + [Around(Connect(id))]
      ensures Abs() == Do(job, old(Abs()), Around(Connect(id)))
      ensures subscribed == old(subscribed) + {id}
    {
      ghost var s := Abs();
      subscribed := subscribed + {id};
      Record(s, Around(Connect(id)));
    }

    /** An agent's event stream ends. */
    method Unsubscribe(id: Id)
      requires Valid()
      modifies this`subscribed, this`log, this`run
      ensures Valid() && Continues(old(run), run) && run.acts == old(run.acts) + [Around(Disconnect(id))]
      ensures Abs() == Do(job, old(Abs()), Around(Disconnect(id)))
      ensures subscribed == old(subscribed) - {id}
    {
      ghost var s := Abs();
      subscribed := subscribed - {id};
      Record(s, Around(Disconnect(id)));
    }

    /** A cancelling client reads the row, and means to write it if it is active. */
    method ClientReadsRow()
      requires Valid()
      modifies this`pendingCancels, this`log, this`run
      ensures Valid() && Continues(old(run), run) && run.acts == old(run.acts) + [Around(CancelRead)]
      ensures Abs() == Do(job, old(Abs()), Around(CancelRead))
      ensures pendingCancels == old(pendingCancels) + if row == RowPending || row == RowInProgress then 1 else 0
    {
      ghost var s := Abs();
      if row.RowPending? || row.RowInProgress? {
        pendingCancels := pendingCancels + 1;
      }
      Record(s, Around(CancelRead));
    }

    /** That client writes the cancelled status, whatever the row holds by then. */
    method ClientCancelsRow(ok: bool)
      requires Valid() && pendingCancels > 0
      modifies this`pendingCancels, this`row, this`log, this`run
      ensures Valid() && Continues(old(run), run) && run.acts == old(run.acts) + [Around(CancelWrite(ok))]
      ensures Abs() == Do(job, old(Abs()), Around(CancelWrite(ok)))
      ensures row == (if ok then RowCancelled else old(row)) && pendingCancels == old(pendingCancels) - 1
    {
      ghost var s := Abs();
      pendingCancels := pendingCancels - 1;
      if ok {
        row := RowCancelled;
      }
      Record(s, Around(CancelWrite(ok)));
    }

    /** One step of the clock or of a context, if possible. */
    method Pass(d: nat, what: nat)
      requires Valid()
      modifies this`now, this`ctxDone, this`parentDone, this`log, this`run
      ensures Valid() && Continues(old(run), run) && (old(ctxDone) ==> ctxDone)
    {
      hide Valid;
      if what == 0 && (ctxDone || now + d <= deadline) {
        Tick(d);
      } else if what == 1 && (cancelRequested || parentDone || now >= deadline) {
        Fire();
      } else if what == 2 {
        StopHub();
      }
    }

    /** One step of a cancelling client, if possible. */
    method Client(ok: bool, what: nat)
      requires Valid()
      modifies this`row, this`pendingCancels, this`cancelRequested, this`log, this`run
      ensures Valid() && Continues(old(run), run)
    {
      hide Valid;
      if what == 0 {
        Cancel();
      } else if what == 1 {
        ClientReadsRow();
      } else if what == 2 && pendingCancels > 0 {
        ClientCancelsRow(ok);
      }
    }

    /** One step of some agent. */
    method Agent(id: Id, state: DeploymentState, details: string, what: nat)
      requires Valid()
      modifies this`results, this`subscribed, this`log, this`run
      ensures Valid() && Continues(old(run), run)
    {
      hide Valid;
      if what == 0 {
        ReportInstanceStatus(id, state, details);
      } else if what == 1 {
        Subscribe(id);
      } else if what == 2 {
        Unsubscribe(id);
      }
    }

    /** Whatever else happens next: one step of some goroutine, agent, timer or client. */
    method Interleave()
      requires Valid() && budget > 0
      modifies this`budget, this`results, this`members, this`now, this`row, this`pendingCancels,
               this`cancelRequested, this`parentDone, this`ctxDone, this`subscribed, this`log, this`run
      ensures Valid() && budget == old(budget) - 1
      ensures Continues(old(run), run) && (old(ctxDone) ==> ctxDone)
    {
      hide IsRun;
      budget := budget - 1;
      var who: nat, what: nat, n: nat := *, *, *;
      if who == 0 {
        if n < |members| {
          var branch: Branch, delivered: bool := *, *;
          DeployToInstance(n, branch, delivered);
        }
      } else if who == 1 {
        Pass(n, what);
      } else if who == 2 {
        var ok: bool := *;
        Client(ok, what);
      } else {
        var id: Id, state: DeploymentState, details: string := *, *, *;
        Agent(id, state, details, what);
      }
    }

    /** Any number of such steps, as many as the budget allows. */
    method Interfere()
      requires Valid()
      modifies this`budget, this`results, this`members, this`now, this`row, this`pendingCancels,
               this`cancelRequested, this`parentDone, this`ctxDone, this`subscribed, this`log, this`run
      ensures Valid() && budget <= old(budget)
      ensures Continues(old(run), run) && (old(ctxDone) ==> ctxDone)
    {
      hide Valid;
      var more: bool := *;
      while more && budget > 0
        invariant Valid() && budget <= old(budget)
        invariant Continues(old(run), run) && (old(ctxDone) ==> ctxDone)
        decreases budget
      {
        Interleave();
        more := *;
      }
    }

    // ----- batches

    /** Starts one goroutine for each position of a batch. */
    method SpawnBatch(k: nat, lo: nat, hi: nat)
      requires Valid() && ctl == AtStage(k) && k < |job.plan|
      requires lo == StageAt(job, k).lo && hi == StageAt(job, k).hi
      requires !(StageAt(job, k).checksContext && ctxDone)
      modifies this`members, this`ctl, this`spawned, this`log, this`run
      ensures Valid() && Continues(old(run), run) && run.acts == old(run.acts) + [Runner(Begin)] && ctl == InStage(k)
    {
      hide IsRun, Effect, Enabled;
      ghost var s := Abs();
      BeginEffect(job, s, k);
      var started := members;
      for p := lo to hi
        invariant started == SpawnRange(s.members, k, lo, p)
      {
        started := started[p := Spawned(k)];
      }
      members, ctl, spawned := started, InStage(k), hi;
      Record(s, Runner(Begin));
    }

    /** Waits for every goroutine of a batch to return. */
    method AwaitBatch(lo: nat, hi: nat) returns (done: bool)
      requires Valid() && lo <= hi <= |job.targets|
      modifies this`budget, this`results, this`members, this`now, this`row, this`pendingCancels,
               this`cancelRequested, this`parentDone, this`ctxDone, this`subscribed, this`log, this`run
      ensures Valid() && Continues(old(run), run)
      ensures if done then forall p :: lo <= p < hi ==> members[p].Returned? else budget == 0
    {
      done := AllReturned(members, lo, hi);
      while !done && budget > 0
        invariant Valid() && Continues(old(run), run)
        invariant done == AllReturned(members, lo, hi)
        decreases budget
      {
        Interleave();
        done := AllReturned(members, lo, hi);
      }
    }

    /** Counts the errors of a batch. */
    method CountErrors(lo: nat, hi: nat) returns (errors: nat)
      requires lo <= hi <= |members| && AllReturned(members, lo, hi)
      ensures errors == 0 <==> forall p :: lo <= p < hi ==> members[p] == Returned(true)
      ensures errors <= hi - lo
    {
      errors := 0;
      for p := lo to hi
        invariant errors == 0 <==> forall q :: lo <= q < p ==> members[q] == Returned(true)
        invariant errors <= p - lo
      {
        if members[p] != Returned(true) {
          errors := errors + 1;
        }
      }
    }

    method SettleBatch(k: nat)
      requires Valid() && ctl == InStage(k) && AllOk(members, StageAt(job, k).lo, StageAt(job, k).hi)
      modifies this`ctl, this`settled, this`log, this`run
      ensures Valid() && Continues(old(run), run) && run.acts == old(run.acts) + [Runner(Collect)] && ctl == Settled(k)
    {
      ghost var s := Abs();
      ctl, settled := Settled(k), StageAt(job, k).hi;
      Record(s, Runner(Collect));
    }

    method FailBatch(k: nat)
      requires Valid() && ctl == InStage(k) && AllReturned(members, StageAt(job, k).lo, StageAt(job, k).hi)
      requires !AllOk(members, StageAt(job, k).lo, StageAt(job, k).hi)
      modifies this`ctl, this`failedStage, this`log, this`run
      ensures Valid() && Continues(old(run), run) && run.acts == old(run.acts) + [Runner(Collect)]
      ensures ctl == if StageAt(job, k).rollsBack then RollingBack(k) else Ending(true)
    {
      ghost var s := Abs();
      failedStage, ctl := Some(k), if StageAt(job, k).rollsBack then RollingBack(k) else Ending(true);
      Record(s, Runner(Collect));
    }

    /** Moves on from a batch whose goroutines have all returned. */
    method CollectBatch(k: nat, lo: nat, hi: nat) returns (r: Result)
      requires Valid() && ctl == InStage(k)
      requires lo == StageAt(job, k).lo && hi == StageAt(job, k).hi && AllReturned(members, lo, hi)
      modifies this`ctl, this`settled, this`failedStage, this`log, this`run
      ensures Valid() && Continues(old(run), run) && run.acts == old(run.acts) + [Runner(Collect)]
      ensures r == if forall p :: lo <= p < hi ==> members[p] == Returned(true) then Success else Error
      ensures ctl == if r.Success? then Settled(k) else if StageAt(job, k).rollsBack then RollingBack(k) else Ending(true)
    {
      hide IsRun;
      var errors := CountErrors(lo, hi);
      if errors == 0 {
        SettleBatch(k);
        r := Success;
      } else {
        FailBatch(k);
        r := Error;
      }
    }

    /** `deployBatch`: batch `k`, positions [lo, hi), announced as `batchNum` of `totalBatches`. */
    method DeployBatch(k: nat, lo: nat, hi: nat, batchNum: int, totalBatches: int) returns (r: Result)
      requires Valid() && ctl == AtStage(k) && k < |job.plan|
      requires lo == StageAt(job, k).lo && hi == StageAt(job, k).hi
      requires batchNum == StageAt(job, k).position && totalBatches == StageAt(job, k).total
      requires !(StageAt(job, k).checksContext && ctxDone)
      modifies this`ctl, this`settled, this`spawned, this`failedStage, this`budget, this`results, this`members,
               this`now, this`row, this`pendingCancels, this`cancelRequested, this`parentDone, this`ctxDone,
               this`subscribed, this`log, this`run
      ensures Valid() && Continues(old(run), run)
      ensures match r
              case Success => ctl == Settled(k)
              case Error => ctl == if StageAt(job, k).rollsBack then RollingBack(k) else Ending(true)
              case Stopped => budget == 0
    {
      hide Valid;
      SpawnBatch(k, lo, hi);
      var done := AwaitBatch(lo, hi);
      if !done {
        return Stopped;
      }
      r := CollectBatch(k, lo, hi);
    }

    // ----- between batches

    /** Instances by status, counted as `updateProgress` does. */
    method CountStatuses() returns (completed: nat, failed: nat)
      ensures completed == |set id | id in results && results[id].status == Completed|
      ensures failed == |set id | id in results && results[id].status == Failed|
    {
      completed, failed := 0, 0;
      var left := results.Keys;
      ghost var seenCompleted: set<Id>, seenFailed: set<Id> := {}, {};
      while left != {}
        invariant left <= results.Keys
        invariant seenCompleted == (set id | id in results && id !in left && results[id].status.Completed?)
        invariant seenFailed == (set id | id in results && id !in left && results[id].status.Failed?)
        invariant completed == |seenCompleted| && failed == |seenFailed|
        decreases left
      {
        var id :| id in left;
        left := left - {id};
        if results[id].status.Completed? {
          completed, seenCompleted := completed + 1, seenCompleted + {id};
        } else if results[id].status.Failed? {
          failed, seenFailed := failed + 1, seenFailed + {id};
        }
      }
      assert seenCompleted == set id | id in results && results[id].status == Completed;
      assert seenFailed == set id | id in results && results[id].status == Failed;
    }

    /** Leaves a settled batch: writes the row if the batch says so, starts its pause if any. */
    method LeaveBatch(k: nat, ok: bool)
      requires Valid() && ctl == Settled(k) && k < |job.plan|
      modifies this`row, this`ctl, this`log, this`run
      ensures Valid() && Continues(old(run), run) && run.acts == old(run.acts) + [Runner(Advance(ok))]
      ensures ctl == if StageAt(job, k).pause.Some? then Paused(k, now) else AtStage(k + 1)
      ensures row == if StageAt(job, k).writesProgress && ok && !ctxDone then RowInProgress else old(row)
    {
      hide IsRun, Shape, Effect, Enabled;
      ghost var s := Abs();
      AdvanceEffect(job, s, k, ok);
      if StageAt(job, k).writesProgress && ok && !ctxDone {
        row := RowInProgress;
      }
      ctl := if StageAt(job, k).pause.Some? then Paused(k, now) else AtStage(k + 1);
      Record(s, Runner(Advance(ok)));
    }

    /** `updateProgress` after batch `k`. */
    method UpdateProgress(k: nat, currentBatch: int, totalBatches: int, ok: bool)
      requires Valid() && ctl == Settled(k) && k < |job.plan|
      modifies this`progress, this`row, this`ctl, this`log, this`run
      ensures Valid() && Continues(old(run), run) && run.acts == old(run.acts) + [Runner(Advance(ok))]
      ensures row == if StageAt(job, k).writesProgress && ok && !ctxDone then RowInProgress else old(row)
      ensures ctl == if StageAt(job, k).pause.Some? then Paused(k, now) else AtStage(k + 1)
      ensures var completed := set id | id in results && results[id].status == Completed;
              var failed := set id | id in results && results[id].status == Failed;
              progress == Some(ProgressCounts(|job.targets|, |completed|, |failed|, currentBatch, totalBatches))
    {
      hide IsRun, Shape;
      var completed, failed := CountStatuses();
      progress := Some(ProgressCounts(|job.targets|, completed, failed, currentBatch, totalBatches));
      LeaveBatch(k, ok);
    }

    /** The select between the context and a timer: whichever is taken was ready. */
    method Pause(k: nat, since: nat, delay: nat) returns (r: Result)
      requires Valid() && ctl == Paused(k, since) && StageAt(job, k).pause == Some(delay)
      modifies this`ctl, this`budget, this`results, this`members, this`now, this`row, this`pendingCancels,
               this`cancelRequested, this`parentDone, this`ctxDone, this`subscribed, this`log, this`run
      ensures Valid() && Continues(old(run), run)
      ensures match r
              case Success => ctl == if StageAt(job, k).checksHealth then HealthCheck(k) else AtStage(k + 1)
              case Error => ctl == Ending(true) && ctxDone
              case Stopped => budget == 0
    {
      hide Valid;
      while true
        invariant Valid() && Continues(old(run), run) && ctl == Paused(k, since)
        decreases budget
      {
        var branch: nat := *;
        if branch == 0 && ctxDone {
          EndPause(k, since);
          return Error;
        }
        if branch == 1 && now >= since + delay {
          FinishPause(k, since);
          return Success;
        }
        if budget == 0 {
          return Stopped;
        }
        Interleave();
      }
    }

    method EndPause(k: nat, since: nat)
      requires Valid() && ctl == Paused(k, since) && ctxDone
      modifies this`ctl, this`log, this`run
      ensures Valid() && Continues(old(run), run) && run.acts == old(run.acts) + [Runner(ResumeDone)]
      ensures ctl == Ending(true)
    {
      ghost var s := Abs();
      ctl := Ending(true);
      Record(s, Runner(ResumeDone));
    }

    method FinishPause(k: nat, since: nat)
      requires Valid() && ctl == Paused(k, since) && now >= since + StageAt(job, k).pause.value
      modifies this`ctl, this`log, this`run
      ensures Valid() && Continues(old(run), run) && run.acts == old(run.acts) + [Runner(ResumeTimer)]
      ensures ctl == if StageAt(job, k).checksHealth then HealthCheck(k) else AtStage(k + 1)
    {
      ghost var s := Abs();
      ctl := if StageAt(job, k).checksHealth then HealthCheck(k) else AtStage(k + 1);
      Record(s, Runner(ResumeTimer));
    }

    /** `checkBatchHealth`: every listed instance has a completed record. */
    method CheckBatchHealth(ids: seq<Id>) returns (healthy: bool)
      ensures healthy <==> forall i :: 0 <= i < |ids| ==> ids[i] in results && results[ids[i]].status == Completed
    {
      for i := 0 to |ids|
        invariant forall h :: 0 <= h < i ==> ids[h] in results && results[ids[h]].status == Completed
      {
        if ids[i] !in results || !results[ids[i]].status.Completed? {
          return false;
        }
      }
      return true;
    }

    /** The canary's health decides between going on and rolling back. */
    method GateOnHealth(k: nat) returns (healthy: bool)
      requires Valid() && ctl == HealthCheck(k)
      modifies this`ctl, this`failedStage, this`log, this`run
      ensures Valid() && Continues(old(run), run) && run.acts == old(run.acts) + [Runner(CheckHealth)]
      ensures ctl == if healthy then AtStage(k + 1) else RollingBack(k)
      ensures failedStage == if healthy then old(failedStage) else Some(k)
      ensures healthy <==> forall p :: StageAt(job, k).lo <= p < StageAt(job, k).hi ==>
                             job.targets[p] in results && results[job.targets[p]].status == Completed
    {
      hide IsRun, Effect, Enabled;
      ghost var s := Abs();
      healthy := CheckBatchHealth(job.targets[StageAt(job, k).lo..StageAt(job, k).hi]);
      HealthEffect(job, s, k, healthy);
      if healthy {
        ctl := AtStage(k + 1);
      } else {
        failedStage, ctl := Some(k), RollingBack(k);
      }
      Record(s, Runner(CheckHealth));
    }

    // ----- rollback

    /** The completed instances, in some order of the map. */
    method DeployedInstances() returns (order: seq<Id>)
      ensures forall h, i :: 0 <= h < i < |order| ==> order[h] != order[i]
      ensures forall id :: id in order <==> id in results && results[id].status == Completed
    {
      order := [];
      var left := results.Keys;
      while left != {}
        invariant left <= results.Keys
        invariant Enumerates(order, set id | id in results && id !in left && results[id].status.Completed?)
        decreases left
      {
        var id :| id in left;
        left := left - {id};
        if results[id].status.Completed? {
          order := order + [id];
        }
      }
      assert left == {};
    }

    method TakeSnapshot(k: nat) returns (order: seq<Id>)
      requires Valid() && ctl == RollingBack(k)
      modifies this`ctl, this`log, this`run
      ensures Valid() && Continues(old(run), run) && run.acts == old(run.acts) + [Runner(Snapshot(order))]
      ensures forall h, i :: 0 <= h < i < |order| ==> order[h] != order[i]
      ensures forall id :: id in order <==> id in results && results[id].status == Completed
      ensures ctl == if order == [] || job.version <= 1 then Ending(true) else LookingUp(k, order)
    {
      ghost var s := Abs();
      order := DeployedInstances();
      ctl := if order == [] || job.version - 1 < 1 then Ending(true) else LookingUp(k, order);
      Record(s, Runner(Snapshot(order)));
    }

    /** `GetConfigVersion` under the run context. */
    method LookupPrevious(k: nat, order: seq<Id>, answer: bool) returns (found: bool)
      requires Valid() && ctl == LookingUp(k, order)
      modifies this`ctl, this`log, this`run
      ensures Valid() && Continues(old(run), run) && run.acts == old(run.acts) + [Runner(Lookup(answer))]
      ensures found <==> answer && !ctxDone
      ensures ctl == if found then Reverting(k, order) else Ending(true)
    {
      ghost var s := Abs();
      found := answer && !ctxDone;
      ctl := if found then Reverting(k, order) else Ending(true);
      Record(s, Runner(Lookup(answer)));
    }

    /** One iteration of the loop over the deployed instances, or its end; `sent` says whether a channel
        takes the event. */
    method RevertNext(k: nat, todo: seq<Id>, sent: bool)
      requires Valid() && ctl == Reverting(k, todo)
      modifies this`ctl, this`log, this`run
      ensures Valid() && Continues(old(run), run)
      ensures run.acts == old(run.acts) + [Runner(Revert(sent && todo != [] && todo[0] in subscribed))]
      ensures ctl == if todo == [] then Ending(true) else Reverting(k, todo[1..])
    {
      ghost var s := Abs();
      var delivered := sent && todo != [] && todo[0] in subscribed;
      ctl := if todo == [] then Ending(true) else Reverting(k, todo[1..]);
      Record(s, Runner(Revert(delivered)));
    }

    /** `rollbackDeployedInstances` after stage `k` failed. */
    method RollbackDeployedInstances(k: nat)
      requires Valid() && ctl == RollingBack(k)
      modifies this`ctl, this`budget, this`results, this`members, this`now, this`row, this`pendingCancels,
               this`cancelRequested, this`parentDone, this`ctxDone, this`subscribed, this`log, this`run
      ensures Valid() && Continues(old(run), run) && ctl == Ending(true)
      ensures exists m {:trigger run.acts[m]} :: |old(run.acts)| <= m < |run.acts| && run.acts[m].Runner? &&
                                                 run.acts[m].move.Snapshot?
    {
      hide Valid;
      Interfere();
      ghost var m := |run.acts|;
      var order := TakeSnapshot(k);
      assert run.acts[m] == Runner(Snapshot(order));
      if order != [] && job.version - 1 >= 1 {
        RevertToPrevious(k, order);
      }
    }

    method RevertToPrevious(k: nat, order: seq<Id>)
      requires Valid() && ctl == LookingUp(k, order)
      modifies this`ctl, this`budget, this`results, this`members, this`now, this`row, this`pendingCancels,
               this`cancelRequested, this`parentDone, this`ctxDone, this`subscribed, this`log, this`run
      ensures Valid() && Continues(old(run), run) && ctl == Ending(true)
    {
      hide Valid;
      Interfere();
      var answer: bool := *;
      var found := LookupPrevious(k, order, answer);
      if found {
        RevertAll(k, order);
      }
    }

    method RevertOne(k: nat, todo: seq<Id>)
      requires Valid() && ctl == Reverting(k, todo) && todo != []
      modifies this`ctl, this`budget, this`results, this`members, this`now, this`row, this`pendingCancels,
               this`cancelRequested, this`parentDone, this`ctxDone, this`subscribed, this`log, this`run
      ensures Valid() && Continues(old(run), run) && ctl == Reverting(k, todo[1..])
    {
      hide Valid;
      Interfere();
      var sent: bool := *;
      RevertNext(k, todo, sent);
    }

    method RevertAll(k: nat, order: seq<Id>)
      requires Valid() && ctl == Reverting(k, order)
      modifies this`ctl, this`budget, this`results, this`members, this`now, this`row, this`pendingCancels,
               this`cancelRequested, this`parentDone, this`ctxDone, this`subscribed, this`log, this`run
      ensures Valid() && Continues(old(run), run) && ctl == Ending(true)
    {
      hide Valid;
      for i := 0 to |order|
        invariant Valid() && Continues(old(run), run) && ctl == Reverting(k, order[i..])
      {
        assert order[i..][1..] == order[i + 1..];
        RevertOne(k, order[i..]);
      }
      RevertNext(k, [], false);
    }

    // ----- the strategies

    /** The plan is exhausted: the strategy returns nil. */
    method FinishPlan()
      requires Valid() && ctl == AtStage(|job.plan|)
      modifies this`ctl, this`log, this`run
      ensures Valid() && Continues(old(run), run) && run.acts == old(run.acts) + [Runner(Begin)] && ctl == Ending(false)
    {
      ghost var s := Abs();
      ctl := Ending(false);
      Record(s, Runner(Begin));
    }

    /** The context is done at the head of the batch loop. */
    method StopAtBatch(k: nat)
      requires Valid() && ctl == AtStage(k) && k < |job.plan| && StageAt(job, k).checksContext && ctxDone
      modifies this`ctl, this`log, this`run
      ensures Valid() && Continues(old(run), run) && run.acts == old(run.acts) + [Runner(Begin)] && ctl == Ending(true)
    {
      ghost var s := Abs();
      ctl := Ending(true);
      Record(s, Runner(Begin));
    }

    method RunAllAtOnce(ghost c: Config) returns (r: Result)
      requires Valid() && ctl == AtStage(0) && WellTyped(c) && job == JobOf(c)
      requires c.strategy.AllAtOnce? || (c.strategy.Canary? && |c.targets| < 2)
      modifies this`ctl, this`settled, this`spawned, this`failedStage, this`budget, this`results, this`members,
               this`now, this`row, this`pendingCancels, this`cancelRequested, this`parentDone, this`ctxDone,
               this`subscribed, this`log, this`run
      ensures Valid() && Continues(old(run), run)
      ensures match r
              case Success => ctl == Ending(false)
              case Error => ctl == Ending(true)
              case Stopped => budget == 0
    {
      hide Valid;
      assert job.plan == AllAtOnceStages(c);
      r := DeployBatch(0, 0, |job.targets|, 1, 1);
      if r.Success? {
        LeaveBatch(0, false);
        FinishPlan();
      }
    }

    /** The batch loop of the rolling strategy, over the positions [from, n); `shift` batches
        have gone before. The canary strategy runs the same loop without progress writes. */
    method RunBatches(c: Config, from: nat, shift: nat, writesProgress: bool) returns (r: Result)
      requires Valid() && ctl == AtStage(shift) && WellTyped(c) && job.targets == c.targets && from <= |c.targets|
      requires shift <= |job.plan| && job.plan[shift..] == RollingStages(c, from, shift, writesProgress)
      modifies this`progress, this`ctl, this`settled, this`spawned, this`failedStage, this`budget, this`results,
               this`members, this`now, this`row, this`pendingCancels, this`cancelRequested, this`parentDone,
               this`ctxDone, this`subscribed, this`log, this`run
      ensures Valid() && Continues(old(run), run)
      ensures match r
              case Success => ctl == Ending(false)
              case Error => ctl == Ending(true)
              case Stopped => budget == 0
    {
      hide Valid;
      var n := |c.targets| - from;
      var batchSize := c.batchSize;
      if batchSize <= 0 {
        batchSize := 1;
      }
      var totalBatches := TruncDiv(Wrap(n + batchSize - 1), batchSize);
      var batchNum := 0;
      while batchNum < totalBatches
        invariant 0 <= batchNum && (batchNum <= totalBatches || batchNum == 0)
        invariant Valid() && Continues(old(run), run) && ctl == AtStage(shift + batchNum)
        decreases totalBatches - batchNum
      {
        var lo, hi := BatchBounds(c, from, shift, writesProgress, batchNum, n, batchSize);
        var delay := if batchNum < totalBatches - 1 then Some(c.timing.batchDelay) else None;
        var next := RunBatch(shift + batchNum, lo, hi, batchNum + 1 + shift, totalBatches + shift, writesProgress, delay);
        if !next.Success? {
          return next;
        }
        batchNum := batchNum + 1;
      }
      FinishPlan();
      return Success;
    }

    /** The slice of the targets that forms one batch, in 64-bit arithmetic. */
    method BatchBounds(c: Config, from: nat, ghost shift: nat, ghost progress: bool, batchNum: nat, n: nat, batchSize: int)
      returns (lo: nat, hi: nat)
      requires WellTyped(c) && from <= |c.targets| && job.targets == c.targets
      requires shift <= |job.plan| && job.plan[shift..] == RollingStages(c, from, shift, progress)
      requires n == |c.targets| - from && batchSize == EffectiveSize(c.batchSize) && batchNum < TotalBatches(n, batchSize)
      ensures shift + batchNum < |job.plan|
      ensures var stage := StageAt(job, shift + batchNum);
              && lo == stage.lo && hi == stage.hi
              && stage.position == batchNum + 1 + shift && stage.total == TotalBatches(n, batchSize) + shift
              && stage.checksContext && stage.rollsBack && !stage.checksHealth && stage.writesProgress == progress
              && stage.pause == if batchNum < TotalBatches(n, batchSize) - 1 then Some(c.timing.batchDelay) else None
    {
      BatchCount(n, batchSize);
      RollingBatch(c, from, shift, progress, batchNum);
      assert job.plan[shift + batchNum] == job.plan[shift..][batchNum];
      var start := Wrap(batchNum * batchSize);
      var end := Wrap(start + batchSize);
      if end > n {
        end := n;
      }
      lo, hi := from + start, from + end;
    }

    /** One iteration of the batch loop. */
    method RunBatch(k: nat, lo: nat, hi: nat, batchNum: int, totalBatches: int, writesProgress: bool, delay: Option<nat>)
      returns (r: Result)
      requires Valid() && ctl == AtStage(k) && k < |job.plan|
      requires lo == StageAt(job, k).lo && hi == StageAt(job, k).hi
      requires batchNum == StageAt(job, k).position && totalBatches == StageAt(job, k).total
      requires StageAt(job, k).checksContext && StageAt(job, k).rollsBack && !StageAt(job, k).checksHealth
      requires StageAt(job, k).writesProgress == writesProgress && StageAt(job, k).pause == delay
      modifies this`progress, this`ctl, this`settled, this`spawned, this`failedStage, this`budget, this`results,
               this`members, this`now, this`row, this`pendingCancels, this`cancelRequested, this`parentDone,
               this`ctxDone, this`subscribed, this`log, this`run
      ensures Valid() && Continues(old(run), run)
      ensures match r
              case Success => ctl == AtStage(k + 1)
              case Error => ctl == Ending(true)
              case Stopped => budget == 0
    {
      hide Valid;
      Interfere();
      if ctxDone {
        StopAtBatch(k);
        return Error;
      }
      r := DeployBatch(k, lo, hi, batchNum, totalBatches);
      if r.Error? {
        RollbackDeployedInstances(k);
      } else if r.Success? {
        r := AfterBatch(k, batchNum, totalBatches, writesProgress, delay);
      }
    }

    /** Progress write and batch delay. */
    method AfterBatch(k: nat, batchNum: int, totalBatches: int, writesProgress: bool, delay: Option<nat>)
      returns (r: Result)
      requires Valid() && ctl == Settled(k) && k < |job.plan| && !StageAt(job, k).checksHealth
      requires StageAt(job, k).writesProgress == writesProgress && StageAt(job, k).pause == delay
      modifies this`progress, this`ctl, this`budget, this`results, this`members, this`now, this`row,
               this`pendingCancels, this`cancelRequested, this`parentDone, this`ctxDone, this`subscribed, this`log,
               this`run
      ensures Valid() && Continues(old(run), run)
      ensures match r
              case Success => ctl == AtStage(k + 1)
              case Error => ctl == Ending(true)
              case Stopped => budget == 0
    {
      hide Valid;
      Interfere();
      if writesProgress {
        var ok: bool := *;
        UpdateProgress(k, batchNum, totalBatches, ok);
      } else {
        LeaveBatch(k, false);
      }
      if delay.Some? {
        r := Pause(k, now, delay.value);
      } else {
        r := Success;
      }
    }

    method RunRolling(c: Config) returns (r: Result)
      requires Valid() && ctl == AtStage(0) && WellTyped(c) && job == JobOf(c)
      requires c.strategy.Rolling? || c.strategy.Unrecognised?
      modifies this`progress, this`ctl, this`settled, this`spawned, this`failedStage, this`budget, this`results,
               this`members, this`now, this`row, this`pendingCancels, this`cancelRequested, this`parentDone,
               this`ctxDone, this`subscribed, this`log, this`run
      ensures Valid() && Continues(old(run), run)
      ensures match r
              case Success => ctl == Ending(false)
              case Error => ctl == Ending(true)
              case Stopped => budget == 0
    {
      hide Valid;
      assert job.plan[0..] == job.plan;
      r := RunBatches(c, 0, 0, true);
    }

    lemma StandsAtEnd()
      requires Valid()
      ensures |run.states| == |run.acts| + 1 && run.states[|run.acts|].results == results
    {
    }

    /** At some point of the run since its first `from` steps, every canary record had status completed. */
    ghost predicate CanaryWasHealthy(c: Config, from: nat)
      reads this
    {
      exists m {:trigger run.states[m]} :: from <= m < |run.states| &&
        forall p :: 0 <= p < |c.targets| && (p == 0 || p < |c.targets| / 10) ==>
          c.targets[p] in run.states[m].results && run.states[m].results[c.targets[p]].status == Completed
    }

    method RunCanary(c: Config) returns (r: Result)
      requires Valid() && ctl == AtStage(0) && WellTyped(c) && job == JobOf(c) && c.strategy.Canary?
      modifies this`progress, this`ctl, this`settled, this`spawned, this`failedStage, this`budget, this`results,
               this`members, this`now, this`row, this`pendingCancels, this`cancelRequested, this`parentDone,
               this`ctxDone, this`subscribed, this`log, this`run
      ensures Valid() && Continues(old(run), run)
      ensures match r
              case Success => ctl == Ending(false)
              case Error => ctl == Ending(true)
              case Stopped => budget == 0
      ensures r.Success? && |c.targets| >= 2 ==> CanaryWasHealthy(c, |old(run.acts)|)
    {
      hide Valid;
      if |c.targets| < 2 {
        r := RunAllAtOnce(c);
      } else {
        r := RunCanaryThenRolling(c);
      }
    }

    method RunCanaryThenRolling(c: Config) returns (r: Result)
      requires Valid() && ctl == AtStage(0) && WellTyped(c) && job == JobOf(c)
      requires c.strategy.Canary? && |c.targets| >= 2
      modifies this`progress, this`ctl, this`settled, this`spawned, this`failedStage, this`budget, this`results,
               this`members, this`now, this`row, this`pendingCancels, this`cancelRequested, this`parentDone,
               this`ctxDone, this`subscribed, this`log, this`run
      ensures Valid() && Continues(old(run), run)
      ensures match r
              case Success => ctl == Ending(false)
              case Error => ctl == Ending(true)
              case Stopped => budget == 0
      ensures r.Success? ==> CanaryWasHealthy(c, |old(run.acts)|)
    {
      hide Valid, RollingStages;
      var canarySize := |c.targets| / 10;
      if canarySize < 1 {
        canarySize := 1;
      }
      assert job.plan == [CanaryStage(c)] + RollingStages(c, canarySize, 1, false);
      r := DeployCanary(canarySize, c.timing.canaryDelay);
      if r.Success? {
        ghost var m := |run.acts|;
        StandsAtEnd();
        r := RunBatches(c, canarySize, 1, false);
      }
    }

    /** The canary batch, its validation period and its health check. */
    method DeployCanary(canarySize: nat, delay: nat) returns (r: Result)
      requires Valid() && ctl == AtStage(0) && job.plan != []
      requires var stage := StageAt(job, 0);
               && stage.lo == 0 && stage.hi == canarySize && stage.position == 1 && stage.total == 2
               && !stage.checksContext && stage.rollsBack && stage.pause == Some(delay) && stage.checksHealth
      modifies this`ctl, this`settled, this`spawned, this`failedStage, this`budget, this`results, this`members,
               this`now, this`row, this`pendingCancels, this`cancelRequested, this`parentDone, this`ctxDone,
               this`subscribed, this`log, this`run
      ensures Valid() && Continues(old(run), run)
      ensures match r
              case Success => ctl == AtStage(1)
              case Error => ctl == Ending(true)
              case Stopped => budget == 0
      ensures r.Success? ==> forall p :: 0 <= p < StageAt(job, 0).hi ==>
                job.targets[p] in results && results[job.targets[p]].status == Completed
    {
      hide Valid;
      r := DeployBatch(0, 0, canarySize, 1, 2);
      if r.Error? {
        RollbackDeployedInstances(0);
      } else if r.Success? {
        r := ValidateCanary(delay);
      }
    }

    /** The validation period, and then the health check or a rollback. */
    method ValidateCanary(delay: nat) returns (r: Result)
      requires Valid() && ctl == Settled(0) && job.plan != []
      requires StageAt(job, 0).pause == Some(delay) && StageAt(job, 0).checksHealth && StageAt(job, 0).lo == 0
      modifies this`ctl, this`failedStage, this`budget, this`results, this`members, this`now, this`row,
               this`pendingCancels, this`cancelRequested, this`parentDone, this`ctxDone, this`subscribed, this`log,
               this`run
      ensures Valid() && Continues(old(run), run)
      ensures match r
              case Success => ctl == AtStage(1)
              case Error => ctl == Ending(true)
              case Stopped => budget == 0
      ensures r.Success? ==> forall p :: 0 <= p < StageAt(job, 0).hi ==>
                job.targets[p] in results && results[job.targets[p]].status == Completed
    {
      hide Valid;
      LeaveBatch(0, false);
      r := Pause(0, now, delay);
      if r.Success? {
        var healthy := GateOnHealth(0);
        if !healthy {
          RollbackDeployedInstances(0);
          r := Error;
        }
      }
    }

    // ----- the run

    /** `updateStatus` to in progress; its failure ends the run. `answer` is what the store would say to
        a call under a live context. */
    method MarkInProgress(answer: bool) returns (ok: bool)
      requires Valid() && ctl == Entering
      modifies this`row, this`ctl, this`log, this`run
      ensures Valid() && Continues(old(run), run) && run.acts == old(run.acts) + [Runner(Start(answer))]
      ensures ok <==> answer && !ctxDone
      ensures if ok then ctl == AtStage(0) && row.RowInProgress? else ctl == Exited && row == old(row)
      ensures Decided(RowCompleted) !in log
    {
      ghost var s := Abs();
      NothingDecidedAtStart(job, run);
      ok := answer && !ctxDone;
      if ok {
        row, ctl := RowInProgress, AtStage(0);
      } else {
        ctl := Exited;
      }
      Record(s, Runner(Start(answer)));
    }

    /** `allSucceeded`. */
    method CheckAllSucceeded() returns (b: bool)
      ensures b <==> forall id :: id in results ==> results[id].status == Completed
    {
      var left := results.Keys;
      while left != {}
        invariant left <= results.Keys
        invariant forall id :: id in results && id !in left ==> results[id].status.Completed?
        decreases left
      {
        var id :| id in left;
        if !results[id].status.Completed? {
          return false;
        }
        left := left - {id};
      }
      return true;
    }

    method JudgeOutcome(failed: bool) returns (status: DeploymentStatus)
      requires Valid() && ctl == Ending(failed)
      modifies this`ctl, this`log, this`run
      ensures Valid() && Continues(old(run), run) && run.acts == old(run.acts) + [Runner(Judge)]
      ensures ctl == Writing(status)
      ensures status == if !failed && forall id :: id in results ==> results[id].status == Completed
                        then RowCompleted else RowFailed
    {
      hide IsRun, Effect, Enabled;
      ghost var s := Abs();
      status := RowFailed;
      if !failed {
        var all := CheckAllSucceeded();
        if all {
          status := RowCompleted;
        }
      }
      JudgeEffect(job, s, status);
      ctl := Writing(status);
      Record(s, Runner(Judge));
    }

    /** The final `updateStatus`; nobody looks at its error. */
    method WriteOutcome(status: DeploymentStatus, ok: bool)
      requires Valid() && ctl == Writing(status)
      modifies this`row, this`ctl, this`log, this`run
      ensures Valid() && Continues(old(run), run) && run.acts == old(run.acts) + [Runner(Conclude(ok))] && ctl == Exited
      ensures row == if ok && !ctxDone then status else old(row)
      ensures Decided(RowCompleted) in log <==> status.RowCompleted?
    {
      hide IsRun, Shape, Effect, Enabled;
      ghost var s := Abs();
      ConcludeEffect(job, s, ok);
      WritingWasDecided(job, run);
      if ok && !ctxDone {
        row := status;
      }
      ctl := Exited;
      Record(s, Runner(Conclude(ok)));
    }

    /** `Run`, after the constructor. Whatever is observed of it is a run of the step system;
        when it is observed to the end, it returns nil exactly when it decided on completed. */
    method Run(c: Config) returns (r: Result)
      requires Valid() && ctl == Entering && WellTyped(c) && job == JobOf(c)
      modifies this`progress, this`ctl, this`settled, this`spawned, this`failedStage, this`budget, this`results,
               this`members, this`now, this`row, this`pendingCancels, this`cancelRequested, this`parentDone,
               this`ctxDone, this`subscribed, this`log, this`run
      ensures Valid() && Continues(old(run), run)
      ensures if r.Stopped? then budget == 0 else ctl == Exited
      ensures !r.Stopped? ==> (r.Success? <==> Decided(RowCompleted) in log)
    {
      hide Valid;
      var ok := Enter();
      if ok {
        r := RunStrategy(c);
        if !r.Stopped? {
          r := Finish(r.Error?);
        }
      } else {
        r := Error;
      }
    }

    method Enter() returns (ok: bool)
      requires Valid() && ctl == Entering
      modifies this`ctl, this`budget, this`results, this`members, this`now, this`row, this`pendingCancels,
               this`cancelRequested, this`parentDone, this`ctxDone, this`subscribed, this`log, this`run
      ensures Valid() && Continues(old(run), run)
      ensures ctl == if ok then AtStage(0) else Exited
      ensures Decided(RowCompleted) !in log
    {
      hide Valid;
      Interfere();
      var answer: bool := *;
      ok := MarkInProgress(answer);
    }

    method RunStrategy(c: Config) returns (r: Result)
      requires Valid() && ctl == AtStage(0) && WellTyped(c) && job == JobOf(c)
      modifies this`progress, this`ctl, this`settled, this`spawned, this`failedStage, this`budget, this`results,
               this`members, this`now, this`row, this`pendingCancels, this`cancelRequested, this`parentDone,
               this`ctxDone, this`subscribed, this`log, this`run
      ensures Valid() && Continues(old(run), run)
      ensures match r
              case Success => ctl == Ending(false)
              case Error => ctl == Ending(true)
              case Stopped => budget == 0
    {
      hide Valid;
      match c.strategy {
        case AllAtOnce => r := RunAllAtOnce(c);
        case Canary => r := RunCanary(c);
        case Rolling => r := RunRolling(c);
        case Unrecognised(_) => r := RunRolling(c);
      }
    }

    method Finish(failed: bool) returns (r: Result)
      requires Valid() && ctl == Ending(failed)
      modifies this`ctl, this`budget, this`results, this`members, this`now, this`row, this`pendingCancels,
               this`cancelRequested, this`parentDone, this`ctxDone, this`subscribed, this`log, this`run
      ensures Valid() && Continues(old(run), run) && ctl == Exited && !r.Stopped?
      ensures r.Success? <==> Decided(RowCompleted) in log
    {
      hide Valid, Outcome;
      Interfere();
      var status := JudgeOutcome(failed);
      Interfere();
      var ok: bool := *;
      WriteOutcome(status, ok);
      r := if status.RowCompleted? then Success else Error;
    }
  }

  lemma PollEffect(j: Job, s: State, p: nat)
    requires Shape(j, s) && p < |s.members| && s.members[p].Waiting? && s.members[p].nextTick <= s.now
    ensures Enabled(j, s, Member(p, Poll)) && j.targets[p] in s.results
    ensures var r, m := s.results[j.targets[p]], s.members[p];
            Effect(j, s, Member(p, Poll)) == s.(members := s.members[p :=
              if r.status == InProgress && r.lastStatusAt.Some? && s.now - r.lastStatusAt.value > j.timing.leaseTimeout
              then Failing(true, LeaseExpired)
              else if r.status == Completed then Marking
              else if r.status == Failed then Failing(true, DeploymentFailed(r.errorMessage))
              else if r.status == RolledBack then Failing(true, InstanceRolledBack)
              else Waiting(m.since, NextTick(m.since, s.now))])
  {
  }

  lemma HealthEffect(j: Job, s: State, k: nat, healthy: bool)
    requires Shape(j, s) && k < |j.plan| && s.ctl == HealthCheck(k)
    requires healthy <==> Healthy(s.results, j.targets[StageAt(j, k).lo..StageAt(j, k).hi])
    ensures Enabled(j, s, Runner(CheckHealth))
    ensures Effect(j, s, Runner(CheckHealth)) ==
            if healthy then s.(ctl := AtStage(k + 1)) else s.(failedStage := Some(k), ctl := RollingBack(k))
    ensures healthy <==> forall p :: StageAt(j, k).lo <= p < StageAt(j, k).hi ==>
                           j.targets[p] in s.results && s.results[j.targets[p]].status == Completed
  {
    var lo, hi := StageAt(j, k).lo, StageAt(j, k).hi;
    assert forall p :: lo <= p < hi ==> j.targets[p] == j.targets[lo..hi][p - lo];
  }

  lemma JudgeEffect(j: Job, s: State, status: DeploymentStatus)
    requires Shape(j, s) && s.ctl.Ending?
    requires status == if !s.ctl.failed && forall id :: id in s.results ==> s.results[id].status == Completed
                       then RowCompleted else RowFailed
    ensures Enabled(j, s, Runner(Judge)) && Effect(j, s, Runner(Judge)) == s.(ctl := Writing(status))
  {
  }

  lemma AdvanceEffect(j: Job, s: State, k: nat, ok: bool)
    requires Shape(j, s) && k < |j.plan| && s.ctl == Settled(k)
    ensures Enabled(j, s, Runner(Advance(ok)))
    ensures Effect(j, s, Runner(Advance(ok))) ==
            s.(row := if StageAt(j, k).writesProgress && ok && !s.ctxDone then RowInProgress else s.row,
               ctl := if StageAt(j, k).pause.Some? then Paused(k, s.now) else AtStage(k + 1))
  {
  }

  lemma BeginEffect(j: Job, s: State, k: nat)
    requires Shape(j, s) && k < |j.plan| && s.ctl == AtStage(k) && !(StageAt(j, k).checksContext && s.ctxDone)
    ensures Enabled(j, s, Runner(Begin))
    ensures Effect(j, s, Runner(Begin)) ==
            s.(ctl := InStage(k), members := SpawnRange(s.members, k, StageAt(j, k).lo, StageAt(j, k).hi),
               spawned := StageAt(j, k).hi)
  {
  }

  lemma ConcludeEffect(j: Job, s: State, ok: bool)
    requires Shape(j, s) && s.ctl.Writing?
    ensures Enabled(j, s, Runner(Conclude(ok)))
    ensures Effect(j, s, Runner(Conclude(ok))) == s.(row := if ok && !s.ctxDone then s.ctl.status else s.row, ctl := Exited)
  {
  }

  /** The batch loop's machine arithmetic computes exactly the bounds of stage `k`. */
  lemma RollingBatch(c: Config, from: nat, shift: nat, progress: bool, k: nat)
    requires WellTyped(c) && from <= |c.targets|
    requires k < |RollingStages(c, from, shift, progress)|
    ensures var n := |c.targets| - from;
            var b := EffectiveSize(c.batchSize);
            var stages := RollingStages(c, from, shift, progress);
            var start := Wrap(k * b);
            var end := Wrap(start + b);
            && 0 <= start < n && start <= end
            && stages[k] == Stage(from + start, from + if end > n then n else end, k + 1 + shift, |stages| + shift,
                                  true, true, progress, if k + 1 < |stages| then Some(c.timing.batchDelay) else None, false)
  {
    var n, b := |c.targets| - from, EffectiveSize(c.batchSize);
    RollingStageBounds(c, from, shift, progress, k);
    NoWrap(n, b, k * b);
    hide RollingStages, Wrap, TotalBatches;
  }

  /** Neither bound of a batch overflows when the batch count did not. */
  lemma NoWrap(n: nat, b: int, start: int)
    requires 1 <= b && 0 <= start < n <= MAX_INT && Fits(n, b)
    ensures Wrap(start) == start && Wrap(start + b) == start + b
  {
  }
}
