/** The orchestrator: registered runners, deployment rows and instance rows. */
module Orchestration {
  import opened HubTypes
  import opened DeploymentPlan
  import opened RunnerModel
  import History = ConfigHistory

  /** A deployment of version `job.version` of a configuration. `hubRestart` is the failure reason. */
  datatype DeploymentRow = DeploymentRow(configId: Id, job: Config, status: DeploymentStatus,
                                         completedAt: Option<nat>, hubRestart: bool)

  datatype InstanceRow = InstanceRow(status: DeploymentState, completedAt: Option<nat>, hubRestart: bool)

  /** Rows of one instance under one deployment. */
  datatype RowKey = RowKey(deployment: Id, instance: Id)

  datatype Tables = Tables(deployments: map<Id, DeploymentRow>, instances: map<RowKey, InstanceRow>)

  /** Pending or in progress. */
  predicate Active(row: DeploymentRow) {
    row.status.RowPending? || row.status.RowInProgress?
  }

  predicate Unfinished(row: InstanceRow) {
    row.status.Pending? || row.status.InProgress?
  }

  function Interrupted(row: DeploymentRow, now: nat): DeploymentRow {
    row.(status := RowFailed, completedAt := Some(now), hubRestart := true)
  }

  function InterruptedInstance(row: InstanceRow, now: nat): InstanceRow {
    if Unfinished(row) then InstanceRow(Failed, Some(now), true) else row
  }

  /** What recovery makes of the tables: every active deployment fails, with its unfinished
      instances. */
  function Recovered(t: Tables, now: nat): Tables {
    Tables(
      map d | d in t.deployments ::
        if Active(t.deployments[d]) then Interrupted(t.deployments[d], now) else t.deployments[d],
      map k | k in t.instances :: RecoveredInstance(t, k, now))
  }

  /** What recovery makes of one instance row. */
  function RecoveredInstance(t: Tables, k: RowKey, now: nat): InstanceRow
    requires k in t.instances
  {
    if k.deployment in t.deployments && Active(t.deployments[k.deployment])
    then InterruptedInstance(t.instances[k], now) else t.instances[k]
  }

  /** Recovery fails every deployment that is pending or in progress, at its own time and with the restart
      as the reason, and under each of them every instance row that is pending or in progress; job and
      configuration of a row stay, and so does everything else. */
  lemma RecoveryIsThorough(t: Tables, now: nat)
    ensures Recovered(t, now).deployments.Keys == t.deployments.Keys
    ensures Recovered(t, now).instances.Keys == t.instances.Keys
    ensures forall d :: d in t.deployments ==>
              var row, row' := t.deployments[d], Recovered(t, now).deployments[d];
              row' == if row.status == RowPending || row.status == RowInProgress
                      then DeploymentRow(row.configId, row.job, RowFailed, Some(now), true) else row
    ensures forall k :: k in t.instances ==>
              var row, row' := t.instances[k], Recovered(t, now).instances[k];
              row' == if k.deployment in t.deployments
                         && (t.deployments[k.deployment].status == RowPending
                             || t.deployments[k.deployment].status == RowInProgress)
                         && (row.status == Pending || row.status == InProgress)
                      then InstanceRow(Failed, Some(now), true) else row
  {
  }

  /** Running recovery a second time, at whatever time, changes nothing. */
  lemma RecoveryIsIdempotent(t: Tables, now: nat, later: nat)
    ensures Recovered(Recovered(t, now), later) == Recovered(t, now)
  {
    var once := Recovered(t, now);
    var twice := Recovered(once, later);
    assert forall d :: d in once.deployments ==> !Active(once.deployments[d]);
    assert twice.deployments == once.deployments;
    assert twice.instances == once.instances;
  }

  /** Recovery up to a set of deployments: theirs are done, the others are as before. */
  ghost predicate RecoveredUpTo(before: Tables, after: Tables, done: set<Id>, now: nat) {
    && after.deployments.Keys == before.deployments.Keys && after.instances.Keys == before.instances.Keys
    && (forall d :: d in before.deployments ==>
          after.deployments[d] == if d in done then Recovered(before, now).deployments[d] else before.deployments[d])
    && (forall k :: k in before.instances ==>
          after.instances[k] == if k.deployment in done then Recovered(before, now).instances[k] else before.instances[k])
  }

  /** A partial recovery never touches what a full one leaves alone. */
  ghost predicate PartlyRecovered(before: Tables, after: Tables, now: nat) {
    && after.deployments.Keys == before.deployments.Keys && after.instances.Keys == before.instances.Keys
    && (forall d :: d in before.deployments ==>
          after.deployments[d] == before.deployments[d] || after.deployments[d] == Recovered(before, now).deployments[d])
    && (forall k :: k in before.instances ==>
          after.instances[k] == before.instances[k] || after.instances[k] == Recovered(before, now).instances[k])
  }

  lemma NothingRecovered(t: Tables, now: nat)
    ensures PartlyRecovered(t, t, now) && RecoveredUpTo(t, t, {}, now)
  {
  }

  /** What a partial recovery has touched has failed. */
  lemma RecoveryInFull(before: Tables, after: Tables, now: nat)
    requires PartlyRecovered(before, after, now)
    ensures after.deployments.Keys == before.deployments.Keys && after.instances.Keys == before.instances.Keys
    ensures forall d :: d in before.deployments && after.deployments[d] != before.deployments[d] ==>
              && (before.deployments[d].status == RowPending || before.deployments[d].status == RowInProgress)
              && after.deployments[d] ==
                 before.deployments[d].(status := RowFailed, completedAt := Some(now), hubRestart := true)
    ensures forall k :: k in before.instances && after.instances[k] != before.instances[k] ==>
              && k.deployment in before.deployments
              && (before.deployments[k.deployment].status == RowPending
                  || before.deployments[k.deployment].status == RowInProgress)
              && (before.instances[k].status == Pending || before.instances[k].status == InProgress)
              && after.instances[k] == InstanceRow(Failed, Some(now), true)
  {
  }

  lemma InstancesRecovered(before: Tables, after: Tables, d: Id, now: nat)
    requires PartlyRecovered(before, after, now) && d in before.deployments && Active(before.deployments[d])
    requires forall k :: k in after.instances && k.deployment == d ==>
               after.instances[k].status != Pending && after.instances[k].status != InProgress
    ensures forall k :: k in after.instances && k.deployment == d ==>
              k in before.instances && after.instances[k] == RecoveredInstance(before, k, now)
  {
  }

  /** Failing one more active deployment is part of a recovery. */
  lemma RowRecovered(before: Tables, t: Tables, d: Id, now: nat)
    requires PartlyRecovered(before, t, now) && d in t.deployments && Active(t.deployments[d])
    ensures d in before.deployments && Active(before.deployments[d])
    ensures PartlyRecovered(before, t.(deployments := t.deployments[d := Interrupted(t.deployments[d], now)]), now)
  {
  }

  /** With its row and its instance rows done, a deployment is recovered. */
  lemma OneMoreRecovered(before: Tables, t: Tables, after: Tables, done: set<Id>, d: Id, now: nat)
    requires RecoveredUpTo(before, t, done, now) && d !in done && d in t.deployments && Active(t.deployments[d])
    requires after.deployments == t.deployments[d := Interrupted(t.deployments[d], now)]
    requires after.instances.Keys == t.instances.Keys
    requires forall k :: k in after.instances && k.deployment == d ==>
               k in before.instances && after.instances[k] == RecoveredInstance(before, k, now)
    requires forall k :: k in after.instances && k.deployment != d ==> after.instances[k] == t.instances[k]
    ensures RecoveredUpTo(before, after, done + {d}, now)
  {
  }

  /** Recovery fails every deployment it touches, so those it has yet to list are as they were. */
  lemma StillListed(before: Tables, after: Tables, status: DeploymentStatus, now: nat)
    requires PartlyRecovered(before, after, now) && (status.RowPending? || status.RowInProgress?)
    ensures forall d :: d in after.deployments && after.deployments[d].status == status ==>
              d in before.deployments && after.deployments[d] == before.deployments[d]
  {
  }

  /** After a recovery of other deployments, the listing has all that had the status at the start. */
  lemma NoneMissed(before: Tables, after: Tables, done: set<Id>, status: DeploymentStatus, now: nat)
    requires RecoveredUpTo(before, after, done, now)
    requires forall d :: d in done ==> d in before.deployments && before.deployments[d].status != status
    ensures forall d :: d in before.deployments && before.deployments[d].status == status ==>
              d in after.deployments && after.deployments[d].status == status
  {
  }

  /** Once every active deployment is done, recovery is complete. */
  lemma AllRecovered(before: Tables, after: Tables, done: set<Id>, now: nat)
    requires RecoveredUpTo(before, after, done, now)
    requires forall d :: d in before.deployments && Active(before.deployments[d]) ==> d in done
    ensures after == Recovered(before, now)
  {
    var all := Recovered(before, now);
    forall k | k in before.instances ensures after.instances[k] == all.instances[k] {
      if k.deployment in before.deployments && Active(before.deployments[k.deployment]) {
        assert k.deployment in done;
      }
    }
    assert after.deployments == all.deployments;
    assert after.instances == all.instances;
  }

  /** What a client asks for: version 0 is the current one, no strategy means rolling, and no targets
      means every instance that matches the selector. */
  datatype CreateRequest = CreateRequest(configId: Id, version: int, targets: seq<Id>, strategy: Option<Strategy>,
                                         batchSize: int)

  /** The deployment a request asks for. */
  function Requested(r: CreateRequest, current: nat, matching: seq<Id>): Config {
    Config(if r.targets != [] then r.targets else matching,
           if r.batchSize == 0 then 1 else r.batchSize,
           if r.strategy.Some? then r.strategy.value else Rolling,
           if r.version == 0 then current else r.version,
           DEFAULT_TIMING)
  }

  /** The configuration is live, the version is stored, and there are targets, all of them known. */
  predicate Acceptable(r: CreateRequest, history: History.Tables, instances: set<Id>, matching: seq<Id>) {
    && History.Live(history, r.configId)
    && var c := Requested(r, history.configs[r.configId].current, matching);
    && c.version >= 0 && History.VersionKey(r.configId, c.version) in history.versions
    && c.targets != []
    && forall i :: 0 <= i < |r.targets| ==> r.targets[i] in instances
  }

  /** When a deployment that was created on the history up to `n` rolls back, the version before its own
      is there, unless that is the first version of a configuration whose creation broke. */
  lemma PreviousOfDeployedIff(log: seq<History.Served>, n: nat, r: CreateRequest, instances: set<Id>, matching: seq<Id>)
    requires n <= |log| && Acceptable(r, History.After(log[..n]), instances, matching)
    requires Requested(r, History.After(log[..n]).configs[r.configId].current, matching).version > 1
    ensures var previous := Requested(r, History.After(log[..n]).configs[r.configId].current, matching).version - 1;
            History.VersionKey(r.configId, previous) in History.After(log).versions <==>
            !(previous == 1 && History.CreationBroke(log, r.configId))
  {
    var version := Requested(r, History.After(log[..n]).configs[r.configId].current, matching).version;
    History.PreviousVersionIff(log, n, r.configId, version);
  }

  /** Deployment ids are UUIDs, and a rollback event carries one followed by `-rollback`. */
  const UUID_LENGTH: nat := 36
  const ROLLBACK_SUFFIX: string := "-rollback"

  class Orchestrator {
    /** Records of the registered runners, by deployment and instance. */
    var runners: map<Id, map<Id, InstanceResult>>
    var tables: Tables
    /** Outcome of each store call, in order, and how many recovery has made so far. */
    const storeOk: nat -> bool
    var calls: nat

    /** Every store call in this range succeeded. */
    ghost predicate Succeeded(from: nat, to: nat) {
      forall k :: from <= k < to ==> storeOk(k)
    }

    /** Runners are registered under the UUID of a deployment. */
    ghost predicate Valid()
      reads this
    {
      forall d :: d in runners ==> |d| == UUID_LENGTH
    }

    constructor (t: Tables, outcomes: nat -> bool)
      ensures Valid() && runners == map[] && tables == t && storeOk == outcomes && calls == 0
    {
      runners, tables, storeOk, calls := map[], t, outcomes, 0;
    }

    method StoreCall() returns (ok: bool)
      modifies this`calls
      ensures ok == storeOk(old(calls)) && calls == old(calls) + 1
    {
      ok, calls := storeOk(calls), calls + 1;
    }

    /** `resolveTargets`: the ids given, once each is known to exist, or the instances that match. */
    method ResolveTargets(ids: seq<Id>, instances: set<Id>, matching: seq<Id>) returns (targets: Option<seq<Id>>)
      modifies this`calls
      ensures calls >= old(calls)
      ensures targets.Some? <==> Succeeded(old(calls), calls) && forall i :: 0 <= i < |ids| ==> ids[i] in instances
      ensures targets.Some? ==> targets.value == if ids != [] then ids else matching
    {
      if ids == [] {
        var listed := StoreCall();
        return if listed then Some(matching) else None;
      }
      for i := 0 to |ids|
        invariant calls >= old(calls) && Succeeded(old(calls), calls)
        invariant forall h :: 0 <= h < i ==> ids[h] in instances
      {
        var ok := StoreCall();
        if !ok || ids[i] !in instances {
          return None;
        }
      }
      targets := Some(ids);
    }

    /** `CreateDeployment`, up to the start of its goroutine: an acceptable request gives a pending row
        with its defaults filled in, unless a store call fails; any other changes nothing. */
    method CreateDeployment(d: Id, r: CreateRequest, history: History.Tables, instances: set<Id>, matching: seq<Id>)
      returns (created: bool)
      requires d !in tables.deployments
      modifies this`tables, this`calls
      ensures created <==> Succeeded(old(calls), calls) && Acceptable(r, history, instances, matching)
      ensures Acceptable(r, history, instances, matching) <==>
                && r.configId in history.configs && !history.configs[r.configId].deleted
                && (r.targets != [] || matching != []) && (forall i :: 0 <= i < |r.targets| ==> r.targets[i] in instances)
                && var version := if r.version == 0 then history.configs[r.configId].current else r.version;
                   version >= 0 && History.VersionKey(r.configId, version) in history.versions
      ensures tables.instances == old(tables).instances
      ensures tables.deployments ==
              if !created then old(tables).deployments
              else
                var version := if r.version == 0 then history.configs[r.configId].current else r.version;
                var strategy := if r.strategy.Some? then r.strategy.value else Rolling;
                var batchSize := if r.batchSize == 0 then 1 else r.batchSize;
                var targets := if r.targets != [] then r.targets else matching;
                var timing := Timing(600_000_000_000, 300_000_000_000, 60_000_000_000, 30_000_000_000, 60_000_000_000);
                old(tables).deployments[d := DeploymentRow(
                  r.configId, Config(targets, batchSize, strategy, version, timing), RowPending, None, false)]
    {
      var ok := StoreCall();
      if !ok || !History.Live(history, r.configId) {
        return false;
      }
      var version := r.version;
      if version == 0 {
        version := history.configs[r.configId].current;
      }
      ok := StoreCall();
      if !ok || version < 0 || History.VersionKey(r.configId, version) !in history.versions {
        return false;
      }
      var targets := ResolveTargets(r.targets, instances, matching);
      if targets.None? || targets.value == [] {
        return false;
      }
      var strategy := if r.strategy.Some? then r.strategy.value else Rolling;
      var batchSize := if r.batchSize == 0 then 1 else r.batchSize;
      ok := StoreCall();
      if ok {
        var row := DeploymentRow(r.configId, Config(targets.value, batchSize, strategy, version, DEFAULT_TIMING),
                                 RowPending, None, false);
        tables := tables.(deployments := tables.deployments[d := row]);
      }
      created := ok;
    }

    /** `runDeployment` registers its runner before running it. */
    method RegisterRunner(d: Id, records: map<Id, InstanceResult>)
      requires Valid() && |d| == UUID_LENGTH
      modifies this`runners
      ensures Valid() && runners == old(runners)[d := records]
    {
      runners := runners[d := records];
    }

    method UnregisterRunner(d: Id)
      requires Valid()
      modifies this`runners
      ensures Valid() && runners == old(runners) - {d}
    {
      runners := runners - {d};
    }

    /** A report reaches the runner of its deployment, and there only the record of its instance;
        under any other id it reaches nothing. */
    method ReportInstanceStatus(instance: Id, deployment: Id, state: DeploymentState, details: string, now: nat)
      requires Valid()
      modifies this`runners
      ensures Valid() && runners.Keys == old(runners).Keys
      ensures forall d, i :: d in runners && i in old(runners)[d] && !(d == deployment && i == instance) ==>
                i in runners[d] && runners[d][i] == old(runners)[d][i]
      ensures forall d :: d in runners ==> runners[d].Keys == old(runners)[d].Keys
      ensures deployment in runners && instance in old(runners)[deployment] ==>
                var r := old(runners)[deployment][instance];
                var ends := state == Completed || state == Failed || state == RolledBack;
                runners[deployment][instance] ==
                  InstanceResult(state, r.startedAt, if ends then Some(now) else r.completedAt, Some(now),
                                 if details == "" then r.errorMessage else Details(details))
      ensures deployment !in runners || instance !in old(runners)[deployment] ==> runners == old(runners)
      ensures (exists d :: |d| == UUID_LENGTH && deployment == d + ROLLBACK_SUFFIX) ==> runners == old(runners)
    {
      if deployment in runners {
        var records := runners[deployment];
        if instance in records {
          runners := runners[deployment := records[instance := ApplyReport(records[instance], now, state, details)]];
        }
      }
    }

    /** Cancels the registered runner, if any, reads the row, and writes it if it was active. `meanwhile`
        is what others have made of the rows in between: the write replaces whatever status the row has
        by then, a final one included. `readOk` and `writeOk` are the outcomes of the store calls. */
    method CancelDeployment(d: Id, now: nat, readOk: bool, meanwhile: map<Id, DeploymentRow>, writeOk: bool)
      returns (ok: bool, signalled: bool)
      requires meanwhile.Keys == tables.deployments.Keys
      modifies this`tables
      ensures signalled <==> d in runners
      ensures var read := readOk && d in old(tables).deployments;
              var writes := read && (old(tables).deployments[d].status == RowPending
                                     || old(tables).deployments[d].status == RowInProgress);
              && (ok <==> read && (writes ==> writeOk))
              && tables.instances == old(tables).instances
              && tables.deployments.Keys == meanwhile.Keys
              && (forall e :: e in meanwhile && e != d ==> tables.deployments[e] == meanwhile[e])
              && (d in meanwhile && writes && writeOk ==>
                    tables.deployments[d] == meanwhile[d].(status := RowCancelled, completedAt := Some(now),
                                                           hubRestart := old(tables).deployments[d].hubRestart))
              && (d in meanwhile && !(writes && writeOk) ==> tables.deployments[d] == meanwhile[d])
    {
      signalled := d in runners;
      var read := if readOk && d in tables.deployments then Some(tables.deployments[d]) else None;
      tables := tables.(deployments := meanwhile);
      if read.None? {
        return false, signalled;
      }
      if Active(read.value) {
        if !writeOk {
          return false, signalled;
        }
        UpdateDeployment(d, read.value.(status := RowCancelled, completedAt := Some(now)));
      }
      ok := true;
    }

    /** `Store.UpdateDeployment` writes the status, the progress and the times of a row, and no more. */
    method UpdateDeployment(d: Id, row: DeploymentRow)
      requires d in tables.deployments
      modifies this`tables
      ensures tables.instances == old(tables).instances
      ensures tables.deployments == old(tables).deployments[d := old(tables).deployments[d].(
                status := row.status, completedAt := row.completedAt, hubRestart := row.hubRestart)]
    {
      var stored := tables.deployments[d].(status := row.status, completedAt := row.completedAt,
                                           hubRestart := row.hubRestart);
      tables := tables.(deployments := tables.deployments[d := stored]);
    }

    /** Marks everything the previous process left running as failed. It stops with an error when
        a listing fails, and passes over store errors of single rows; with none it is `Recovered`,
        and it never touches a row that `Recovered` leaves alone. */
    method RecoverOrphanedDeployments(now: nat) returns (listed: bool)
      modifies this`tables, this`calls
      ensures calls > old(calls)
      ensures Succeeded(old(calls), calls) ==> listed && tables == Recovered(old(tables), now)
      ensures PartlyRecovered(old(tables), tables, now)
      ensures tables.deployments.Keys == old(tables).deployments.Keys
      ensures tables.instances.Keys == old(tables).instances.Keys
      ensures forall d :: d in tables.deployments ==>
                var row := old(tables).deployments[d];
                var failed := row.(status := RowFailed, completedAt := Some(now), hubRestart := true);
                if row.status == RowPending || row.status == RowInProgress
                then tables.deployments[d] == failed || (tables.deployments[d] == row && !Succeeded(old(calls), calls))
                else tables.deployments[d] == row
      ensures forall k :: k in tables.instances ==>
                var row := old(tables).instances[k];
                if k.deployment in tables.deployments
                   && (old(tables).deployments[k.deployment].status == RowPending
                       || old(tables).deployments[k.deployment].status == RowInProgress)
                   && (row.status == Pending || row.status == InProgress)
                then tables.instances[k] == InstanceRow(Failed, Some(now), true)
                     || (tables.instances[k] == row && !Succeeded(old(calls), calls))
                else tables.instances[k] == row
    {
      hide RecoveredUpTo;
      ghost var before := tables;
      ghost var pending, active;
      NothingRecovered(before, now);
      hide PartlyRecovered, Recovered;
      listed, pending := RecoverStatus(RowPending, now, before, {});
      RecoveryInFull(before, tables, now);
      if !listed {
        return;
      }
      listed, active := RecoverStatus(RowInProgress, now, before, pending);
      RecoveryInFull(before, tables, now);
      if Succeeded(old(calls), calls) {
        AllRecovered(before, tables, active, now);
        RecoveryIsThorough(before, now);
      }
    }

    /** One of the two listings, and every deployment on it, in any order. */
    method RecoverStatus(status: DeploymentStatus, now: nat, ghost before: Tables, ghost done: set<Id>)
      returns (listed: bool, ghost all: set<Id>)
      requires status.RowPending? || status.RowInProgress?
      requires PartlyRecovered(before, tables, now)
      requires forall d :: d in done ==> d in before.deployments && before.deployments[d].status != status
      modifies this`tables, this`calls
      ensures PartlyRecovered(before, tables, now)
      ensures all == done + set d | d in before.deployments && before.deployments[d].status == status
      ensures calls > old(calls) && listed == storeOk(old(calls))
      ensures Succeeded(old(calls), calls) && RecoveredUpTo(before, old(tables), done, now) ==>
                RecoveredUpTo(before, tables, all, now)
    {
      hide RecoveredUpTo, PartlyRecovered;
      all := done + set d | d in before.deployments && before.deployments[d].status == status;
      listed := StoreCall();
      if !listed {
        return;
      }
      var left := set d | d in tables.deployments && tables.deployments[d].status == status;
      ghost var sofar := done;
      StillListed(before, tables, status, now);
      if RecoveredUpTo(before, tables, done, now) {
        NoneMissed(before, tables, done, status, now);
        assert left + sofar == all;
      }
      while left != {}
        invariant PartlyRecovered(before, tables, now)
        invariant left !! sofar && calls > old(calls)
        invariant forall d :: d in left ==> d in tables.deployments && tables.deployments[d] == before.deployments[d]
        invariant forall d :: d in left ==> before.deployments[d].status == status
        invariant Succeeded(old(calls), calls) && RecoveredUpTo(before, old(tables), done, now) ==>
                    RecoveredUpTo(before, tables, sofar, now) && left + sofar == all
        decreases left
      {
        var d :| d in left;
        left := left - {d};
        RecoverOne(d, now, before, sofar);
        sofar := sofar + {d};
      }
      assert left + sofar == sofar;
    }

    /** `UpdateDeployment` and the instance loop for one orphaned deployment; when a store call
        fails, the rest of this deployment is left as it is. */
    method RecoverOne(d: Id, now: nat, ghost before: Tables, ghost done: set<Id>)
      requires d in tables.deployments && Active(tables.deployments[d]) && d !in done
      requires PartlyRecovered(before, tables, now) && tables.deployments[d] == before.deployments[d]
      modifies this`tables, this`calls
      ensures PartlyRecovered(before, tables, now) && calls > old(calls)
      ensures tables.deployments == old(tables).deployments ||
              tables.deployments == old(tables).deployments[d :=
                old(tables).deployments[d].(status := RowFailed, completedAt := Some(now), hubRestart := true)]
      ensures Succeeded(old(calls), calls) ==> tables.deployments[d].status == RowFailed
      ensures tables.instances.Keys == old(tables).instances.Keys
      ensures forall k :: k in tables.instances ==>
                var row := old(tables).instances[k];
                if k.deployment == d && (row.status == Pending || row.status == InProgress)
                then tables.instances[k] == InstanceRow(Failed, Some(now), true)
                     || (tables.instances[k] == row && !Succeeded(old(calls), calls))
                else tables.instances[k] == row
      ensures Succeeded(old(calls), calls) && RecoveredUpTo(before, old(tables), done, now) ==>
                RecoveredUpTo(before, tables, done + {d}, now)
    {
      hide PartlyRecovered, RecoveredUpTo;
      var ok := StoreCall();
      if !ok {
        return;
      }
      RowRecovered(before, tables, d, now);
      tables := tables.(deployments := tables.deployments[d := Interrupted(tables.deployments[d], now)]);
      ok := StoreCall();
      if ok {
        RecoverInstances(d, now, before);
        if Succeeded(old(calls), calls) && RecoveredUpTo(before, old(tables), done, now) {
          OneMoreRecovered(before, old(tables), tables, done, d, now);
        }
      }
    }

    /** The instance rows of one deployment, in any order. */
    method RecoverInstances(d: Id, now: nat, ghost before: Tables)
      requires d in before.deployments && Active(before.deployments[d])
      requires PartlyRecovered(before, tables, now)
      modifies this`tables, this`calls
      ensures PartlyRecovered(before, tables, now) && tables.deployments == old(tables).deployments
      ensures calls >= old(calls) && tables.instances.Keys == old(tables).instances.Keys
      ensures forall k :: k in tables.instances ==>
                var row := old(tables).instances[k];
                if k.deployment == d && (row.status == Pending || row.status == InProgress)
                then tables.instances[k] == InstanceRow(Failed, Some(now), true)
                     || (tables.instances[k] == row && !Succeeded(old(calls), calls))
                else tables.instances[k] == row
      ensures Succeeded(old(calls), calls) ==>
                forall k :: k in tables.instances && k.deployment == d ==>
                  k in before.instances && tables.instances[k] == RecoveredInstance(before, k, now)
    {
      hide PartlyRecovered, RecoveredInstance;
      var left := set k | k in tables.instances && k.deployment == d;
      while left != {}
        invariant left <= tables.instances.Keys && forall k :: k in left ==> k.deployment == d
        invariant PartlyRecovered(before, tables, now) && tables.deployments == old(tables).deployments
        invariant calls >= old(calls) && tables.instances.Keys == old(tables).instances.Keys
        invariant forall k :: k in left ==> tables.instances[k] == old(tables).instances[k]
        invariant forall k :: k in tables.instances ==>
                    var row := old(tables).instances[k];
                    if k.deployment == d && k !in left && (row.status == Pending || row.status == InProgress)
                    then tables.instances[k] == InstanceRow(Failed, Some(now), true)
                         || (tables.instances[k] == row && !Succeeded(old(calls), calls))
                    else tables.instances[k] == row
        decreases left
      {
        var k :| k in left;
        left := left - {k};
        RecoverRow(k, now, before);
      }
      if Succeeded(old(calls), calls) {
        InstancesRecovered(before, tables, d, now);
      }
    }

    /** One instance row: it fails if it was unfinished. */
    method RecoverRow(k: RowKey, now: nat, ghost before: Tables)
      requires k in tables.instances && PartlyRecovered(before, tables, now)
      requires k.deployment in before.deployments && Active(before.deployments[k.deployment])
      modifies this`tables, this`calls
      ensures PartlyRecovered(before, tables, now) && tables.deployments == old(tables).deployments
      ensures calls >= old(calls) && k in before.instances && tables.instances.Keys == old(tables).instances.Keys
      ensures forall e :: e in tables.instances && e != k ==> tables.instances[e] == old(tables).instances[e]
      ensures var row := old(tables).instances[k];
              if row.status == Pending || row.status == InProgress
              then tables.instances[k] == InstanceRow(Failed, Some(now), true)
                   || (tables.instances[k] == row && !Succeeded(old(calls), calls))
              else tables.instances[k] == row
    {
      if Unfinished(tables.instances[k]) {
        var ok := StoreCall();
        if ok {
          tables := tables.(instances := tables.instances[k := InstanceRow(Failed, Some(now), true)]);
        }
      }
    }
  }
}
