/** What the records of a run hold, read off its history. */
module RunnerRecords {
  import opened HubTypes
  import opened DeploymentPlan
  import opened RunnerModel

  // ----- the last word on an instance

  /** The instance an entry of the history is about. */
  function Subject(j: Job, e: Event): Option<Id> {
    match e
    case Reset(p) => if p < |j.targets| then Some(j.targets[p]) else None
    case Reported(id, _) => Some(id)
    case Finished(p, _) => if p < |j.targets| then Some(j.targets[p]) else None
    case _ => None
  }

  /** What it says of that instance. */
  function Word(e: Event): DeploymentState
    requires e.Reset? || e.Reported? || e.Finished?
  {
    match e
    case Reset(_) => InProgress
    case Reported(_, state) => state
    case Finished(_, ok) => if ok then Completed else Failed
  }

  /** Entry `i` is the last one about the instance. */
  ghost predicate LastWordAt(j: Job, log: seq<Event>, id: Id, i: int) {
    0 <= i < |log| && Subject(j, log[i]) == Some(id) && forall h :: i < h < |log| ==> Subject(j, log[h]) != Some(id)
  }

  ghost predicate Silent(j: Job, log: seq<Event>, id: Id) {
    forall h :: 0 <= h < |log| ==> Subject(j, log[h]) != Some(id)
  }

  /** The record has the status of the last word on its instance, or the one it started with. */
  ghost predicate RecordFits(j: Job, s0: State, s: State, id: Id)
    requires id in s0.results && id in s.results
  {
    && (Silent(j, s.log, id) ==> s.results[id].status == s0.results[id].status)
    && (forall i :: LastWordAt(j, s.log, id, i) ==> s.results[id].status == Word(s.log[i]))
  }

  /** Each step changes the status of the instance its entry is about, to what the entry says. */
  ghost predicate StatusFollows(j: Job, s: State, e: seq<Event>, s': State, id: Id)
    requires id in s.results && id in s'.results
  {
    s'.results[id].status == if |e| == 1 && Subject(j, e[0]) == Some(id) then Word(e[0]) else s.results[id].status
  }

  lemma StatusStep(j: Job, s: State, p: nat, step: Step, id: Id)
    requires Shape(j, s) && p < |s.members| && StepEnabled(j, s, p, step) && id in s.results
    ensures StatusFollows(j, s, StepEvents(j, s, p, step), DoStep(j, s, p, step), id)
  {
  }

  lemma StatusMove(j: Job, s: State, move: Move, id: Id)
    requires Shape(j, s) && MoveEnabled(j, s, move) && id in s.results
    ensures StatusFollows(j, s, MoveEvents(j, s, move), DoMove(j, s, move), id)
  {
    hide DoMove;
  }

  lemma StatusAction(j: Job, s: State, a: Action, id: Id)
    requires Shape(j, s) && Enabled(j, s, a) && id in s.results
    ensures StatusFollows(j, s, Events(j, s, a), Do(j, s, a), id)
  {
    match a
    case Around(o) =>
    case Member(p, step) => StatusStep(j, s, p, step, id);
    case Runner(move) => StatusMove(j, s, move, id);
  }

  lemma FitsAfter(j: Job, s0: State, s: State, e: seq<Event>, s': State, id: Id)
    requires id in s0.results && id in s.results && id in s'.results
    requires RecordFits(j, s0, s, id) && StatusFollows(j, s, e, s', id) && s'.log == s.log + e && |e| <= 1
    ensures RecordFits(j, s0, s', id)
  {
    forall i | LastWordAt(j, s'.log, id, i) ensures s'.results[id].status == Word(s'.log[i]) {
      if i < |s.log| {
        assert s'.log[i] == s.log[i] && forall h :: 0 <= h < |s.log| ==> s'.log[h] == s.log[h];
        assert |e| == 1 ==> s'.log[|s.log|] == e[0];
        assert LastWordAt(j, s.log, id, i);
      }
    }
    if Silent(j, s'.log, id) {
      assert forall h :: 0 <= h < |s.log| ==> s'.log[h] == s.log[h];
      assert |e| == 1 ==> s'.log[|s.log|] == e[0];
      assert Silent(j, s.log, id);
    }
  }

  lemma FitsAction(j: Job, s0: State, s: State, a: Action, id: Id)
    requires Shape(j, s) && Enabled(j, s, a) && id in s0.results && id in s.results && RecordFits(j, s0, s, id)
    ensures RecordFits(j, s0, Do(j, s, a), id)
  {
    StatusAction(j, s, a, id);
    LogIs(j, s, a);
    hide Do, Enabled, Events, RecordFits, StatusFollows;
    FitsAfter(j, s0, s, Events(j, s, a), Do(j, s, a), id);
  }

  /** In every state of every run, every record has the status of the last entry about its instance: in
      progress after a reset, what was reported after a report, completed or failed after its goroutine
      returned. */
  lemma {:induction false} RecordIsLastWord(j: Job, b: Behaviour, n: nat, id: Id)
    requires IsRun(j, b) && n < |b.states| && id in b.states[0].results
    ensures id in b.states[n].results && RecordFits(j, b.states[0], b.states[n], id)
  {
    hide Do, Enabled;
    if n > 0 {
      RecordIsLastWord(j, b, n - 1, id);
      assert Takes(j, b.states[n - 1], b.acts[n - 1], b.states[n]);
      FitsAction(j, b.states[0], b.states[n - 1], b.acts[n - 1], id);
    }
  }

  lemma LogIs(j: Job, s: State, a: Action)
    requires Shape(j, s) && Enabled(j, s, a)
    ensures Do(j, s, a).log == s.log + Events(j, s, a) && |Events(j, s, a)| <= 1
  {
  }

  // ----- completions

  /** The last word on the instance is that it completed: a report of it, or its goroutine's success. */
  ghost predicate SaidCompleted(j: Job, log: seq<Event>, id: Id) {
    exists i :: LastWordAt(j, log, id, i) && (log[i] == Reported(id, Completed) || (log[i].Finished? && log[i].ok))
  }

  /** The same, or nothing has been said and the run began with a completed record. */
  ghost predicate Complete(j: Job, s0: State, log: seq<Event>, id: Id) {
    SaidCompleted(j, log, id) || (Silent(j, log, id) && id in s0.results && s0.results[id].status == Completed)
  }

  lemma {:induction false} LastWordExists(j: Job, log: seq<Event>, id: Id)
    requires !Silent(j, log, id)
    ensures exists i :: LastWordAt(j, log, id, i)
  {
    var last := |log| - 1;
    if Subject(j, log[last]) == Some(id) {
      assert LastWordAt(j, log, id, last);
    } else {
      LastWordExists(j, log[..last], id);
      var i :| LastWordAt(j, log[..last], id, i);
      assert LastWordAt(j, log, id, i);
    }
  }

  /** A record is completed exactly if the history says so. */
  lemma CompletedIffSaid(j: Job, b: Behaviour, n: nat, id: Id)
    requires IsRun(j, b) && n < |b.states| && id in b.states[0].results
    ensures id in b.states[n].results
    ensures b.states[n].results[id].status == Completed <==> Complete(j, b.states[0], b.states[n].log, id)
    ensures Complete(j, b.states[0], b.states[n].log, id) && !Silent(j, b.states[n].log, id) ==>
              SaidCompleted(j, b.states[n].log, id)
  {
    RecordIsLastWord(j, b, n, id);
    var log := b.states[n].log;
    if !Silent(j, log, id) {
      LastWordExists(j, log, id);
      var i :| LastWordAt(j, log, id, i);
      assert log[i].Reported? ==> log[i].id == id;
      forall h | LastWordAt(j, log, id, h) ensures h == i {
        assert !(h < i) && !(i < h);
      }
    }
  }

  lemma {:induction false} TargetsHaveRecords(j: Job, b: Behaviour, n: nat)
    requires IsRun(j, b) && n < |b.states|
    ensures forall p :: 0 <= p < |j.targets| ==> j.targets[p] in b.states[n].results
    ensures forall id :: id in b.states[n].results ==> id in j.targets
  {
    hide Do, Enabled;
    var s := b.states[n];
    if n > 0 {
      assert Takes(j, b.states[n - 1], b.acts[n - 1], s);
    }
    assert s.results.Keys == TargetSet(j);
    forall id | id in s.results ensures id in j.targets {
      assert id in TargetSet(j);
    }
    forall p | 0 <= p < |j.targets| ensures j.targets[p] in s.results {
      assert j.targets[p] in TargetSet(j);
    }
  }

  /** The same for all targets at once. */
  lemma AllCompletedIffSaid(j: Job, b: Behaviour, n: nat, ids: seq<Id>)
    requires IsRun(j, b) && n < |b.states|
    requires forall i :: 0 <= i < |ids| ==> ids[i] in j.targets
    ensures forall i :: 0 <= i < |ids| ==> ids[i] in b.states[n].results
    ensures (forall i :: 0 <= i < |ids| ==> b.states[n].results[ids[i]].status == Completed) <==>
            forall i :: 0 <= i < |ids| ==> Complete(j, b.states[0], b.states[n].log, ids[i])
  {
    hide Complete;
    TargetsHaveRecords(j, b, 0);
    forall i | 0 <= i < |ids|
      ensures ids[i] in b.states[n].results
      ensures b.states[n].results[ids[i]].status == Completed <==> Complete(j, b.states[0], b.states[n].log, ids[i])
    {
      CompletedIffSaid(j, b, n, ids[i]);
    }
  }
}
