/** The polling loop that waits for one instance, against the reports of its agent. */
module InstanceWait {
  import opened HubTypes
  import opened DeploymentPlan
  import opened RunnerModel

  datatype Report = Report(at: nat, state: DeploymentState, details: string)

  datatype Outcome = Done | Failure(reason: Message)

  /** Reports arrive one after the other, none before `start`. */
  ghost predicate Ordered(start: nat, reports: seq<Report>) {
    && (forall i :: 0 <= i < |reports| ==> start <= reports[i].at)
    && (forall h, i :: 0 <= h < i < |reports| ==> reports[h].at <= reports[i].at)
  }

  /** The record as of instant `t`: the first one, overwritten by every report up to then. */
  function RecordAt(r: InstanceResult, reports: seq<Report>, t: nat): InstanceResult
  {
    if reports == [] then r
    else
      var last := reports[|reports| - 1];
      var before := RecordAt(r, reports[..|reports| - 1], t);
      if last.at <= t then ApplyReport(before, last.at, last.state, last.details) else before
  }

  predicate Terminal(state: DeploymentState) {
    state.Completed? || state.Failed? || state.RolledBack?
  }

  /** Whatever came before, the newest report settles status and lease, the newest terminal one the
      completion time, and the newest one with an error text the error. */
  lemma {:induction false} NewestReportsDecide(r: InstanceResult, reports: seq<Report>, t: nat, i: nat)
    requires i < |reports| && reports[i].at <= t
    ensures var now := RecordAt(r, reports, t);
            var newer := set h | i < h < |reports| && reports[h].at <= t;
            && (newer == {} ==> now.status == reports[i].state && now.lastStatusAt == Some(reports[i].at))
            && (Terminal(reports[i].state) && (forall h :: h in newer ==> !Terminal(reports[h].state)) ==>
                  now.completedAt == Some(reports[i].at))
            && (reports[i].details != "" && (forall h :: h in newer ==> reports[h].details == "") ==>
                  now.errorMessage == Details(reports[i].details))
            && now.startedAt == r.startedAt
  {
    var n := |reports| - 1;
    var newer := set h | i < h < |reports| && reports[h].at <= t;
    if i < n {
      NewestReportsDecide(r, reports[..n], t, i);
      assert reports[n].at <= t ==> n in newer;
    } else {
      ReportsKeepStart(r, reports[..n], t);
    }
  }

  lemma {:induction false} ReportsKeepStart(r: InstanceResult, reports: seq<Report>, t: nat)
    ensures RecordAt(r, reports, t).startedAt == r.startedAt
  {
    if reports != [] {
      ReportsKeepStart(r, reports[..|reports| - 1], t);
    }
  }

  /** What the tick at `t` decides. */
  function TickVerdict(r: InstanceResult, reports: seq<Report>, t: nat, lease: nat): Verdict {
    PollVerdict(RecordAt(r, reports, t), t, lease)
  }

  /** Report `i` is the newest one up to `t`. */
  ghost predicate Newest(reports: seq<Report>, t: nat, i: nat) {
    i < |reports| && reports[i].at <= t && forall h :: i < h < |reports| ==> reports[h].at > t
  }

  /** The tick at `t` decides by the newest report up to then: completion ends the wait well, a failure or a
      rollback ends it badly, progress keeps it going for as long as the lease, and anything else keeps it
      going. */
  lemma NewestReportDecides(r: InstanceResult, reports: seq<Report>, t: nat, lease: nat, i: nat)
    requires Newest(reports, t, i)
    ensures var verdict := TickVerdict(r, reports, t, lease);
            match reports[i].state
            case Completed => verdict == Succeeded
            case Failed => verdict.GaveUp? && verdict.reason.DeploymentFailed?
                           && (reports[i].details != "" ==> verdict.reason.cause == Details(reports[i].details))
            case RolledBack => verdict == GaveUp(InstanceRolledBack)
            case InProgress => verdict == if t - reports[i].at > lease then GaveUp(LeaseExpired) else Continue
            case _ => verdict == Continue
  {
    NewestReportsDecide(r, reports, t, i);
    assert (set h | i < h < |reports| && reports[h].at <= t) == {};
  }

  /** Until the first report the reset of the record counts as the agent's last word. */
  lemma UnreportedDecides(start: nat, reports: seq<Report>, t: nat, lease: nat)
    requires forall i :: 0 <= i < |reports| ==> reports[i].at > t
    requires start <= t
    ensures TickVerdict(FreshLease(start), reports, t, lease) ==
            if t - start > lease then GaveUp(LeaseExpired) else Continue
  {
    LeaseKept(FreshLease(start), reports, t);
  }

  /** The instant of tick `i`. */
  function TickTime(start: nat, i: nat): (t: nat) {
    start + i * POLL_INTERVAL
  }

  /** No tick strictly before `end` decides anything. */
  ghost predicate UndecidedUntil(start: nat, r: InstanceResult, reports: seq<Report>, lease: nat, end: nat) {
    forall i: nat :: i >= 1 && TickTime(start, i) < end ==>
      TickVerdict(r, reports, TickTime(start, i), lease) == Continue
  }

  /** `waitForInstance`: entered at `start` with record `r`; its context is done from `ctxDone`
      on, if at all. When several branches of the select are ready at one instant, any may be
      taken. It ends with the verdict of the first deciding tick, unless the context or the
      timeout ends it no later than that. */
  method WaitForInstance(start: nat, r: InstanceResult, reports: seq<Report>, ctxDone: Option<nat>,
                         instanceTimeout: nat, leaseTimeout: nat)
    returns (out: Outcome, at: nat)
    requires ctxDone.Some? ==> start <= ctxDone.value
    ensures start <= at <= start + instanceTimeout
    ensures ctxDone.Some? ==> at <= ctxDone.value
    ensures UndecidedUntil(start, r, reports, leaseTimeout, at)
    ensures out.Done? || !(out.reason.ContextDone? || out.reason.TimedOut?) ==> (at - start) % POLL_INTERVAL == 0
    ensures match out
            case Done => at > start && TickVerdict(r, reports, at, leaseTimeout) == Succeeded
            case Failure(ContextDone) => ctxDone == Some(at)
            case Failure(TimedOut) => at == start + instanceTimeout
            case Failure(reason) => at > start && TickVerdict(r, reports, at, leaseTimeout) == GaveUp(reason)
  {
    var timeout := start + instanceTimeout;
    var stop := if ctxDone.Some? && ctxDone.value < timeout then ctxDone.value else timeout;
    var tick, i := start + POLL_INTERVAL, 1;
    while true
      invariant i >= 1 && tick == TickTime(start, i) <= stop + POLL_INTERVAL
      invariant UndecidedUntil(start, r, reports, leaseTimeout, tick)
      decreases stop + POLL_INTERVAL - tick
    {
      var branch: bool := *;
      if tick > stop || (tick == stop && branch) {
        var context: bool := *;
        if ctxDone == Some(stop) && (context || stop != timeout) {
          return Failure(ContextDone), stop;
        } else {
          return Failure(TimedOut), stop;
        }
      }
      match TickVerdict(r, reports, tick, leaseTimeout) {
        case Succeeded => return Done, tick;
        case GaveUp(reason) => return Failure(reason), tick;
        case Continue =>
          NextTickUndecided(start, r, reports, leaseTimeout, i);
          tick, i := tick + POLL_INTERVAL, i + 1;
      }
    }
  }

  lemma NextTickUndecided(start: nat, r: InstanceResult, reports: seq<Report>, lease: nat, i: nat)
    requires UndecidedUntil(start, r, reports, lease, TickTime(start, i))
    requires TickVerdict(r, reports, TickTime(start, i), lease) == Continue
    ensures UndecidedUntil(start, r, reports, lease, TickTime(start, i + 1))
  {
    forall h: nat | h >= 1 && TickTime(start, h) < TickTime(start, i + 1)
      ensures TickVerdict(r, reports, TickTime(start, h), lease) == Continue
    {
      assert h < i || h == i;
    }
  }

  // ----- leases

  /** The newest report up to `t`, if any, renewed the lease at its own time. */
  lemma {:induction false} LeaseAt(r: InstanceResult, reports: seq<Report>, t: nat, i: nat)
    requires Ordered(0, reports) && i < |reports| && reports[i].at <= t
    requires r.lastStatusAt.Some?
    ensures RecordAt(r, reports, t).lastStatusAt.Some?
    ensures RecordAt(r, reports, t).lastStatusAt.value >= reports[i].at
  {
    var n := |reports| - 1;
    if i < n {
      LeaseAt(r, reports[..n], t, i);
    }
  }

  lemma {:induction false} LeaseKept(r: InstanceResult, reports: seq<Report>, t: nat)
    requires r.lastStatusAt.Some?
    ensures RecordAt(r, reports, t).lastStatusAt.Some?
    ensures (forall i :: 0 <= i < |reports| ==> reports[i].at > t) ==> RecordAt(r, reports, t) == r
  {
    if reports != [] {
      LeaseKept(r, reports[..|reports| - 1], t);
    }
  }

  /** The agent reports at least every `lease`: within `lease` of the initial lease, and again
      within `lease` of every report, until `end`. */
  ghost predicate Lively(first: nat, reports: seq<Report>, lease: nat, end: nat) {
    && Ordered(first, reports)
    && (if reports == [] then end <= first + lease else reports[0].at <= first + lease)
    && (forall i :: 0 <= i < |reports| - 1 ==> reports[i + 1].at <= reports[i].at + lease)
    && (reports != [] ==> end <= reports[|reports| - 1].at + lease)
  }

  /** In a lively stretch the lease is never older than `lease`. */
  lemma LivelyLease(first: nat, r: InstanceResult, reports: seq<Report>, lease: nat, end: nat, t: nat)
    requires r.lastStatusAt == Some(first) && Lively(first, reports, lease, end) && first <= t <= end
    ensures var l := RecordAt(r, reports, t).lastStatusAt;
            l.Some? && t <= l.value + lease
  {
    if reports == [] || t < reports[0].at {
      LeaseKept(r, reports, t);
    } else {
      var i := NewestBefore(reports, t);
      LeaseAt(r, reports, t, i);
    }
  }

  lemma {:induction false} NewestBefore(reports: seq<Report>, t: nat) returns (i: nat)
    requires reports != [] && reports[0].at <= t
    ensures i < |reports| && reports[i].at <= t
    ensures i == |reports| - 1 || t < reports[i + 1].at
  {
    var n := |reports| - 1;
    if n == 0 || reports[n].at <= t {
      i := n;
    } else {
      i := NewestBefore(reports[..n], t);
    }
  }

  /** An agent whose reports are never more than the lease apart never loses it: no tick ends the
      wait with a lease error. */
  lemma LivelyAgentKeepsLease(first: nat, r: InstanceResult, reports: seq<Report>, lease: nat, end: nat, t: nat)
    requires r.lastStatusAt == Some(first) && Lively(first, reports, lease, end) && first <= t <= end
    ensures TickVerdict(r, reports, t, lease) != GaveUp(LeaseExpired)
  {
    LivelyLease(first, r, reports, lease, end, t);
  }

  /** The last thing known of the agent: in progress at `l`, silent from then on. */
  ghost predicate SilentSince(r: InstanceResult, reports: seq<Report>, l: nat) {
    forall t: nat {:trigger RecordAt(r, reports, t)} :: t >= l ==>
      RecordAt(r, reports, t).status.InProgress? && RecordAt(r, reports, t).lastStatusAt == Some(l)
  }

  /** An agent whose last report says in progress is silent from that report on. */
  lemma SilentAfterLastReport(r: InstanceResult, reports: seq<Report>)
    requires reports != [] && reports[|reports| - 1].state.InProgress?
    ensures SilentSince(r, reports, reports[|reports| - 1].at)
  {
  }

  /** A silent agent's lease expires at the first tick more than `lease` after its last word,
      and at no tick before that. */
  lemma SilentVerdict(r: InstanceResult, reports: seq<Report>, l: nat, lease: nat, t: nat)
    requires SilentSince(r, reports, l) && t >= l
    ensures TickVerdict(r, reports, t, lease) == if t > l + lease then GaveUp(LeaseExpired) else Continue
  {
  }

  /** The first tick after instant `t`. */
  lemma TickAfter(start: nat, t: nat) returns (i: nat)
    requires start <= t
    ensures i >= 1 && t < start + i * POLL_INTERVAL <= t + POLL_INTERVAL
  {
    var q := (t - start) / POLL_INTERVAL;
    assert q * POLL_INTERVAL <= t - start < q * POLL_INTERVAL + POLL_INTERVAL;
    i := q + 1;
    assert i * POLL_INTERVAL == q * POLL_INTERVAL + POLL_INTERVAL;
  }

  /** An instance whose agent goes silent while in progress is given up within the lease plus one
      tick of the agent's last word. */
  lemma SilentAgentIsGivenUp(start: nat, r: InstanceResult, reports: seq<Report>, l: nat, lease: nat, at: nat)
    requires SilentSince(r, reports, l) && start <= l + lease
    requires UndecidedUntil(start, r, reports, lease, at)
    ensures at <= l + lease + POLL_INTERVAL
  {
    var i := TickAfter(start, l + lease);
    SilentVerdict(r, reports, l, lease, TickTime(start, i));
  }

  /** With the hub's lease that is 62 seconds. */
  lemma SilentForAMinute(start: nat, r: InstanceResult, reports: seq<Report>, l: nat, at: nat)
    requires SilentSince(r, reports, l) && start <= l + 60_000_000_000
    requires UndecidedUntil(start, r, reports, DEFAULT_TIMING.leaseTimeout, at)
    ensures at <= l + 62_000_000_000
  {
    SilentAgentIsGivenUp(start, r, reports, l, DEFAULT_TIMING.leaseTimeout, at);
  }

  /** The wait with its two guarantees: a lively agent sees no lease error, and a silent one is
      given up in time. */
  method WaitWithLease(start: nat, reports: seq<Report>, ctxDone: Option<nat>, instanceTimeout: nat, leaseTimeout: nat,
                       ghost l: nat)
    returns (out: Outcome, at: nat)
    requires ctxDone.Some? ==> start <= ctxDone.value
    requires start <= l + leaseTimeout
    ensures start <= at <= start + instanceTimeout
    ensures Lively(start, reports, leaseTimeout, start + instanceTimeout) ==> out != Failure(LeaseExpired)
    ensures SilentSince(FreshLease(start), reports, l) ==> at <= l + leaseTimeout + POLL_INTERVAL
  {
    out, at := WaitForInstance(start, FreshLease(start), reports, ctxDone, instanceTimeout, leaseTimeout);
    if Lively(start, reports, leaseTimeout, start + instanceTimeout) {
      LivelyAgentKeepsLease(start, FreshLease(start), reports, leaseTimeout, start + instanceTimeout, at);
    }
    if SilentSince(FreshLease(start), reports, l) {
      SilentAgentIsGivenUp(start, FreshLease(start), reports, l, leaseTimeout, at);
    }
  }
}
