/** The agent's crash recovery: the id of the running deployment is kept in the state file, and one
    found there at the start is reported as failed before the event loop begins. */
module AgentRecovery {
  import opened HubTypes

  /** Where the event goroutine is in `handleEvent` and `OnDeployment`. It handles one event after the
      other, and its session lasts until it is back at its stream. */
  datatype Routine =
    | Waiting
    | Accepted(deployment: Id)
    | Marked(deployment: Id)
    | Working(deployment: Id)
    | Cleared(deployment: Id, done: bool)
    | Finishing(deployment: Id, done: bool)

  /** Where the main loop is. */
  datatype Phase =
    | Connecting
    | Reporting(deployment: Id)
    | Reported(deployment: Id)
    | Forgotten(deployment: Id)
    | Looping

  datatype Report =
    | StartedReport(deployment: Id)
    | EndedReport(deployment: Id, done: bool)
    | InterruptedReport(deployment: Id, sent: bool)

  /** `mem` and `disk` are the active deployment in memory and in the state file, empty for none. The
      rest is for reasoning: whether a session has begun since the start, the file and the number of
      reports at the start, an id left over from an earlier process, and the file before the last mark. */
  datatype State = State(mem: Id, disk: Id, phase: Phase, routine: Routine, reports: seq<Report>,
                         begun: bool, atStart: Id, reportsAtStart: nat, leftover: Id, before: Id)

  datatype Act =
    | Restart
    | ReadActive
    | ReportEnd(sent: bool)
    | Forget
    | ForgetSave(ok: bool)
    | Disconnect
    | Event(deployment: Id)
    | Mark
    | MarkSave(ok: bool)
    | WorkSave(ok: bool)
    | Clear(done: bool)
    | ClearSave(ok: bool)
    | Finish
    | OtherSave(ok: bool)

  /** A session is given up only when its event stream has ended, which the event goroutine notices
      between two events. A process may crash or be stopped at any point. */
  predicate Enabled(s: State, a: Act) {
    match a
    case Restart => true
    case ReadActive => s.phase.Connecting?
    case ReportEnd(_) => s.phase.Reporting?
    case Forget => s.phase.Reported?
    case ForgetSave(_) => s.phase.Forgotten?
    case Disconnect => s.phase.Looping? && s.routine.Waiting?
    case Event(d) => s.phase.Looping? && s.routine.Waiting? && d != ""
    case Mark => s.routine.Accepted?
    case MarkSave(_) => s.routine.Marked?
    case WorkSave(_) => s.routine.Working?
    case Clear(_) => s.routine.Working?
    case ClearSave(_) => s.routine.Cleared?
    case Finish => s.routine.Finishing?
    case OtherSave(_) => true
  }

  /** `Save` writes all of memory, whoever calls it. */
  function Save(s: State, ok: bool): State {
    if ok then s.(disk := s.mem) else s
  }

  /** A new session, with its event goroutine. */
  function BeginLoop(s: State): State {
    s.(phase := Looping, routine := Waiting, begun := true)
  }

  function Do(s: State, a: Act): State
    requires Enabled(s, a)
  {
    match a
    case Restart =>
      State(s.disk, s.disk, Connecting, Waiting, s.reports, false, s.disk, |s.reports|, s.disk, s.before)
    case ReadActive => if s.mem == "" then BeginLoop(s) else s.(phase := Reporting(s.mem))
    case ReportEnd(sent) =>
      var told := s.(reports := s.reports + [InterruptedReport(s.phase.deployment, sent)]);
      if sent then told.(phase := Reported(s.phase.deployment)) else BeginLoop(told)
    case Forget => s.(mem := "", leftover := "", phase := Forgotten(s.phase.deployment))
    case ForgetSave(ok) => BeginLoop(Save(s, ok))
    case Disconnect => s.(phase := Connecting)
    case Event(d) => s.(routine := Accepted(d), reports := s.reports + [StartedReport(d)])
    case Mark =>
      s.(routine := Marked(s.routine.deployment), mem := s.routine.deployment, leftover := "", before := s.disk)
    case MarkSave(ok) => Save(s, ok).(routine := Working(s.routine.deployment))
    case WorkSave(ok) => Save(s, ok)
    case Clear(done) => s.(routine := Cleared(s.routine.deployment, done), mem := "")
    case ClearSave(ok) => Save(s, ok).(routine := Finishing(s.routine.deployment, s.routine.done))
    case Finish =>
      s.(routine := Waiting, reports := s.reports + [EndedReport(s.routine.deployment, s.routine.done)])
    case OtherSave(ok) => Save(s, ok)
  }

  /** A process starting on a state file. */
  function Start(active: Id): State {
    State(active, active, Connecting, Waiting, [], false, active, 0, active, active)
  }

  datatype Run = Run(states: seq<State>, acts: seq<Act>)

  ghost predicate IsRun(b: Run) {
    && |b.states| == |b.acts| + 1
    && b.states[0] == Start(b.states[0].disk)
    && forall i {:trigger b.acts[i]} :: 0 <= i < |b.acts| ==>
         Enabled(b.states[i], b.acts[i]) && b.states[i + 1] == Do(b.states[i], b.acts[i])
  }

  /** Saves, and how they end. */
  predicate Saves(a: Act, ok: bool) {
    a == ForgetSave(ok) || a == MarkSave(ok) || a == WorkSave(ok) || a == ClearSave(ok) || a == OtherSave(ok)
  }

  ghost predicate SavesSucceed(b: Run) {
    forall i {:trigger b.acts[i]} :: 0 <= i < |b.acts| ==> !Saves(b.acts[i], false)
  }

  /** Some save among the acts [from, to) went through. */
  ghost predicate SavedWithin(b: Run, from: nat, to: nat) {
    exists i {:trigger b.acts[i]} :: from <= i < to <= |b.acts| && Saves(b.acts[i], true)
  }

  /** Acts that change the id in memory, or may. */
  predicate ChangesMemory(a: Act) {
    a.Restart? || a.Forget? || a.Mark? || a.Clear?
  }

  /** None of the acts [from, to) changes the id in memory. */
  ghost predicate MemoryStays(b: Run, from: nat, to: nat) {
    to <= |b.acts| && forall i {:trigger b.acts[i]} :: from <= i < to ==> !ChangesMemory(b.acts[i])
  }

  /** The event goroutine is at work only inside the event loop, and memory follows its deployment. */
  ghost predicate OneAtATime(s: State) {
    && (!s.routine.Waiting? ==> s.phase.Looping?)
    && (s.phase.Looping? ==> s.begun)
    && (s.leftover == "" || s.leftover == s.atStart)
    && (s.phase.Reporting? || s.phase.Reported? || s.phase.Forgotten? ==> s.phase.deployment != "")
    && (match s.routine
        case Marked(d) => s.mem == d != "" && s.leftover == ""
        case Working(d) => s.mem == d != "" && s.leftover == ""
        case Cleared(_, _) => s.mem == "" == s.leftover
        case Accepted(d) => s.mem == s.leftover && d != ""
        case _ => s.mem == s.leftover && (s.phase.Reporting? || s.phase.Reported? ==> s.mem == s.phase.deployment))
  }

  /** What the state file holds when no save fails. The save of a heartbeat may write a mark or its
      clearing early, so that there the file may be on either side. */
  ghost predicate FileFollows(s: State) {
    match s.routine
    case Marked(d) => s.disk == d || s.disk == s.before
    case Working(d) => s.disk == d
    case Cleared(d, _) => s.disk == d || s.disk == ""
    case _ => s.disk == s.leftover || (s.phase.Forgotten? && s.disk == s.phase.deployment)
  }

  lemma OneAtATimeIsKept(s: State, a: Act)
    requires OneAtATime(s) && Enabled(s, a)
    ensures OneAtATime(Do(s, a))
  {
  }

  lemma FileFollowsIsKept(s: State, a: Act)
    requires OneAtATime(s) && FileFollows(s) && Enabled(s, a) && !Saves(a, false)
    ensures FileFollows(Do(s, a))
  {
  }

  /** In every run one deployment is in hand at a time, and memory holds its id from its mark to its
      clearing. */
  lemma {:induction false} RunsAreOneAtATime(b: Run, n: nat)
    requires IsRun(b) && n <= |b.acts|
    ensures OneAtATime(b.states[n])
  {
    if n > 0 {
      RunsAreOneAtATime(b, n - 1);
      assert Enabled(b.states[n - 1], b.acts[n - 1]);
      OneAtATimeIsKept(b.states[n - 1], b.acts[n - 1]);
    }
  }

  /** In every run whose saves succeed, with any number of crashes, the file holds a deployment's id from
      the save of its mark to its clearing, and nothing but a leftover id otherwise. */
  lemma {:induction false} ActiveOnDiskExactly(b: Run, n: nat)
    requires IsRun(b) && SavesSucceed(b) && n <= |b.acts|
    ensures OneAtATime(b.states[n]) && FileFollows(b.states[n])
  {
    RunsAreOneAtATime(b, n);
    if n > 0 {
      ActiveOnDiskExactly(b, n - 1);
      assert Enabled(b.states[n - 1], b.acts[n - 1]);
      FileFollowsIsKept(b.states[n - 1], b.acts[n - 1]);
    }
  }

  /** No deployment that is in hand is ever reported as interrupted: a process has nothing in hand while
      it makes such a report. */
  lemma NothingInHandIsReported(b: Run, n: nat)
    requires IsRun(b) && n < |b.acts| && b.acts[n].ReportEnd?
    ensures b.states[n].routine.Waiting?
  {
    RunsAreOneAtATime(b, n);
    assert Enabled(b.states[n], b.acts[n]);
  }

  /** Until the first session of a process begins, its first report is still to come or is about the
      id found in the file; afterwards it has been made. With no id found, the first report of a process
      is that of a deployment starting. */
  ghost predicate ReportsFirst(s: State) {
    && s.reportsAtStart <= |s.reports|
    && (if !s.begun && (s.phase.Connecting? || s.phase.Reporting?) then
          && s.mem == s.atStart && |s.reports| == s.reportsAtStart
          && (s.phase.Reporting? ==> s.phase.deployment == s.atStart)
        else if s.atStart == "" then
          |s.reports| > s.reportsAtStart ==> s.reports[s.reportsAtStart].StartedReport?
        else
          && |s.reports| > s.reportsAtStart && s.reports[s.reportsAtStart].InterruptedReport?
          && s.reports[s.reportsAtStart].deployment == s.atStart)
    && (!s.routine.Waiting? ==> |s.reports| > s.reportsAtStart)
  }

  lemma ReportsFirstIsKept(s: State, a: Act)
    requires OneAtATime(s) && ReportsFirst(s) && Enabled(s, a)
    ensures ReportsFirst(Do(s, a))
    ensures !a.Restart? ==> Do(s, a).atStart == s.atStart && Do(s, a).reportsAtStart == s.reportsAtStart
  {
  }

  /** In every run, with any crashes, failures and disconnections, an id found in the file at the start
      is the first thing a process reports, as failed, before any session begins. */
  lemma {:induction false} InterruptedIsReportedFirst(b: Run, n: nat)
    requires IsRun(b) && n <= |b.acts|
    ensures ReportsFirst(b.states[n])
  {
    if n > 0 {
      InterruptedIsReportedFirst(b, n - 1);
      RunsAreOneAtATime(b, n - 1);
      assert Enabled(b.states[n - 1], b.acts[n - 1]);
      ReportsFirstIsKept(b.states[n - 1], b.acts[n - 1]);
    }
  }

  /** After a crash at step `n`, the process that is running its sessions at step `m` began by
      reporting `d` as interrupted. */
  ghost predicate ReportedNext(b: Run, n: nat, m: nat, d: Id)
    requires IsRun(b) && n < m <= |b.acts|
  {
    var first := |b.states[n].reports|;
    first < |b.states[m].reports| && b.states[m].reports[first].InterruptedReport? &&
    b.states[m].reports[first].deployment == d
  }

  /** A crash at step `n`, and a session of the process that follows it at step `m`. */
  ghost predicate CrashAndNextSession(b: Run, n: nat, m: nat) {
    && IsRun(b) && n < m <= |b.acts| && b.acts[n] == Restart && b.states[m].begun
    && forall k {:trigger b.acts[k]} :: n < k < m ==> b.acts[k] != Restart
  }

  /** What the file held at the crash decides what the next process reports. */
  lemma ReportedIffInFile(b: Run, n: nat, m: nat, d: Id)
    requires CrashAndNextSession(b, n, m) && d != ""
    ensures ReportedNext(b, n, m, d) <==> b.states[n].disk == d
  {
    SameStart(b, n, m);
    InterruptedIsReportedFirst(b, m);
  }

  lemma {:induction false} SameStart(b: Run, n: nat, m: nat)
    requires IsRun(b) && n < m <= |b.acts| && b.acts[n] == Restart
    requires forall k {:trigger b.acts[k]} :: n < k < m ==> b.acts[k] != Restart
    ensures b.states[m].atStart == b.states[n].disk && b.states[m].reportsAtStart == |b.states[n].reports|
  {
    assert Enabled(b.states[m - 1], b.acts[m - 1]);
    if m > n + 1 {
      SameStart(b, n, m - 1);
      InterruptedIsReportedFirst(b, m - 1);
      RunsAreOneAtATime(b, m - 1);
      ReportsFirstIsKept(b.states[m - 1], b.acts[m - 1]);
    }
  }

  /** While memory stays, the file is memory once a save has gone through, and as it was until then. */
  lemma {:induction false} FileIsLastSave(b: Run, from: nat, to: nat)
    requires IsRun(b) && from <= to && MemoryStays(b, from, to)
    ensures b.states[to].mem == b.states[from].mem
    ensures b.states[to].disk == if SavedWithin(b, from, to) then b.states[from].mem else b.states[from].disk
  {
    if from < to {
      FileIsLastSave(b, from, to - 1);
      var last := b.acts[to - 1];
      assert Enabled(b.states[to - 1], last);
      assert SavedWithin(b, from, to) <==> SavedWithin(b, from, to - 1) || Saves(last, true);
    }
  }

  /** A deployment that is cut off between its mark at step `k` and its clearing is reported as failed by
      the next process exactly if some save since the mark went through, or the file had its id before. */
  lemma CutOffIsReportedIff(b: Run, k: nat, n: nat, m: nat)
    requires CrashAndNextSession(b, n, m) && k < n && b.acts[k] == Mark && MemoryStays(b, k + 1, n)
    requires Enabled(b.states[k], Mark)
    ensures var d := b.states[k].routine.deployment;
            ReportedNext(b, n, m, d) <==> SavedWithin(b, k + 1, n) || b.states[k].disk == d
  {
    RunsAreOneAtATime(b, k);
    FileIsLastSave(b, k + 1, n);
    ReportedIffInFile(b, n, m, b.states[k].routine.deployment);
  }

  /** A deployment that ended at its clearing at step `c`, successfully or not, is reported as failed by
      the next process exactly if its id reached the file after the mark at step `k`, or was there
      before, and no save since the clearing went through. For a successful one this is a false alarm. */
  lemma EndedIsReportedIff(b: Run, k: nat, c: nat, n: nat, m: nat)
    requires CrashAndNextSession(b, n, m) && k < c < n && b.acts[k] == Mark && b.acts[c].Clear?
    requires MemoryStays(b, k + 1, c) && MemoryStays(b, c + 1, n)
    requires Enabled(b.states[k], Mark)
    ensures var d := b.states[k].routine.deployment;
            ReportedNext(b, n, m, d) <==>
            (SavedWithin(b, k + 1, c) || b.states[k].disk == d) && !SavedWithin(b, c + 1, n)
  {
    RunsAreOneAtATime(b, k);
    FileIsLastSave(b, k + 1, c);
    assert Enabled(b.states[c], b.acts[c]);
    FileIsLastSave(b, c + 1, n);
    ReportedIffInFile(b, n, m, b.states[k].routine.deployment);
  }

  /** With saves that succeed: a crash at work is always reported; one between a mark and its save, or
      between a clearing and its save, is reported if the save of a heartbeat had written the mark, or
      had not written the clearing. */
  lemma CrashedDeploymentIsReported(b: Run, n: nat, m: nat)
    requires CrashAndNextSession(b, n, m) && SavesSucceed(b)
    ensures match b.states[n].routine
            case Working(d) => ReportedNext(b, n, m, d)
            case Marked(d) => ReportedNext(b, n, m, d) || b.states[n].disk == b.states[n].before
            case Cleared(d, _) => ReportedNext(b, n, m, d) || b.states[n].disk == ""
            case _ => b.states[n].disk == b.states[n].leftover ||
                      (b.states[n].phase.Forgotten? && ReportedNext(b, n, m, b.states[n].phase.deployment))
  {
    ActiveOnDiskExactly(b, n);
    if b.states[n].disk != "" {
      ReportedIffInFile(b, n, m, b.states[n].disk);
    }
  }

  /** An id is on record and nothing has been done about it. */
  ghost predicate OnRecord(s: State, d: Id) {
    && s.mem == d == s.disk
    && !s.phase.Reported? && !s.phase.Forgotten?
    && (s.routine.Waiting? || s.routine.Accepted?)
  }

  /** An id found at the start stays in the file, through failed reports, failed saves and further
      crashes, until it is reported or the mark of another deployment replaces it. */
  lemma {:induction false} LeftoverStaysUntilReported(b: Run, n: nat, m: nat)
    requires IsRun(b) && n < m <= |b.acts| && b.acts[n] == Restart
    requires forall k {:trigger b.acts[k]} :: n < k < m ==> b.acts[k] != ReportEnd(true) && !b.acts[k].Mark?
    ensures OnRecord(b.states[m], b.states[n].disk)
  {
    assert Enabled(b.states[m - 1], b.acts[m - 1]);
    if m > n + 1 {
      LeftoverStaysUntilReported(b, n, m - 1);
    }
  }

  /** A later point of the same run. */
  ghost predicate Continues(earlier: Run, later: Run) {
    earlier.states <= later.states && earlier.acts <= later.acts
  }

  class Agent {
    var state: State
    ghost var run: Run

    ghost predicate Valid()
      reads this
    {
      IsRun(run) && run.states[|run.acts|] == state
    }

    constructor (active: Id)
      ensures Valid() && state == Start(active) && run.acts == []
    {
      state, run := Start(active), Run([Start(active)], []);
    }

    method Take(a: Act)
      requires Valid() && Enabled(state, a)
      modifies this
      ensures Valid() && Continues(old(run), run) && state == Do(old(state), a)
      ensures run.acts == old(run).acts + [a] && old(state).reports <= state.reports
    {
      state := Do(state, a);
      run := Run(run.states + [state], run.acts + [a]);
    }

    /** Anything the main loop may do while the event goroutine is at work, but for a crash: the saves of
        its heartbeats. */
    method Others()
      requires Valid() && !state.routine.Waiting?
      modifies this
      ensures Valid() && Continues(old(run), run)
      ensures state == old(state).(disk := state.disk)
    {
      var rounds: nat := *;
      while rounds > 0
        invariant Valid() && Continues(old(run), run)
        invariant state == old(state).(disk := state.disk)
      {
        var ok: bool := *;
        Take(OtherSave(ok));
        rounds := rounds - 1;
      }
    }

    /** `SetActiveDeployment`: the change, and then the save. */
    method SetActiveDeployment(saved: bool)
      requires Valid() && state.routine.Accepted?
      modifies this
      ensures Valid() && Continues(old(run), run) && old(run).acts + [Mark] <= run.acts
      ensures state.routine == Working(old(state).routine.deployment) && state.mem == old(state).routine.deployment
      ensures state.reports == old(state).reports && (saved ==> state.disk == state.mem)
    {
      hide IsRun;
      Take(Mark);
      Others();
      Take(MarkSave(saved));
    }

    /** `clearActiveDeployment`, at the end of a deployment that was applied or not. */
    method ClearActiveDeployment(applied: bool, saved: bool)
      requires Valid() && state.routine.Working?
      modifies this
      ensures Valid() && Continues(old(run), run) && old(run).acts + [Clear(applied)] <= run.acts
      ensures state.routine == Finishing(old(state).routine.deployment, applied) && state.mem == ""
      ensures state.reports == old(state).reports && (saved ==> state.disk == "")
    {
      hide IsRun;
      Take(Clear(applied));
      Others();
      Take(ClearSave(saved));
    }

    /** `OnDeployment`; `applied` says whether the fetch and the write succeeded. Failed saves are only
        logged. */
    method OnDeployment(saves: (bool, bool, bool, bool), applied: bool)
      requires Valid() && state.routine.Accepted?
      modifies this
      ensures Valid() && Continues(old(run), run) && old(run).acts + [Mark] <= run.acts
      ensures state.routine == Finishing(old(state).routine.deployment, applied) && state.mem == ""
      ensures state.reports == old(state).reports && (saves.3 ==> state.disk == "")
    {
      hide IsRun, Do;
      SetActiveDeployment(saves.0);
      Others();
      if applied {
        ConfigSaves(saves.1, saves.2);
      }
      ClearActiveDeployment(applied, saves.3);
    }

    /** The two saves of the configuration state, in `OnConfigUpdate` and after it. */
    method ConfigSaves(first: bool, second: bool)
      requires Valid() && state.routine.Working?
      modifies this
      ensures Valid() && Continues(old(run), run)
      ensures state == old(state).(disk := state.disk)
    {
      hide IsRun;
      Take(WorkSave(first));
      Others();
      Take(WorkSave(second));
      Others();
    }

    /** A deployment event in `handleEvent`: reports the start before anything else, carries it out, and
        reports how it ended. */
    method HandleDeployment(d: Id, saves: (bool, bool, bool, bool), applied: bool)
      requires Valid() && state.phase.Looping? && state.routine.Waiting? && d != ""
      modifies this
      ensures Valid() && Continues(old(run), run) && old(run).acts + [Event(d)] <= run.acts
      ensures state.routine.Waiting? && state.mem == ""
      ensures state.reports == old(state).reports + [StartedReport(d), EndedReport(d, applied)]
    {
      hide IsRun;
      Take(Event(d));
      Others();
      OnDeployment(saves, applied);
      Others();
      Take(Finish);
    }

    /** One pass of `Run` from a registration to the event loop: whatever memory has on record is
        reported, and forgotten if the report went out. */
    method ReportInterruptedDeployment(sent: bool, saved: bool)
      requires Valid() && state.phase.Connecting? && state.routine.Waiting?
      modifies this
      ensures Valid() && Continues(old(run), run) && state.phase.Looping? && state.routine.Waiting?
      ensures state.reports == if old(state).mem == "" then old(state).reports
                               else old(state).reports + [InterruptedReport(old(state).mem, sent)]
      ensures state.mem == if sent then "" else old(state).mem
      ensures state.disk == if sent && saved && old(state).mem != "" then "" else old(state).disk
    {
      var recorded := state.mem != "";
      Take(ReadActive);
      if recorded {
        Take(ReportEnd(sent));
        if sent {
          Take(Forget);
          Take(ForgetSave(saved));
        }
      }
    }
  }
}
