/** The agent's persisted state: setters that change memory under the lock and then save it under
    the lock again, so that other callers may come in between. */
module AgentState {
  import opened HubTypes

  datatype State = State(instanceId: Id, version: string, hash: string, configId: Id, active: Id,
                         lastUpdated: nat, createdAt: nat)

  /** What a setter assigns. */
  datatype Change =
    | InstanceIdChange(id: Id)
    | ConfigChange(version: string, hash: string, configId: Id)
    | ActiveChange(deployment: Id)

  /** A state file is missing, holds a state, or holds something that does not parse. */
  datatype File = Missing | Stored(state: State) | Corrupted

  /** State that no file or setter has filled in yet. */
  function Fresh(now: nat): State {
    State("", "", "", "", "", now, now)
  }

  function Apply(s: State, c: Change): State {
    match c
    case InstanceIdChange(id) => s.(instanceId := id)
    case ConfigChange(version, hash, configId) => s.(version := version, hash := hash, configId := configId)
    case ActiveChange(deployment) => s.(active := deployment)
  }

  /** One critical section of some caller. A crash loses the callers and the memory. */
  datatype Step =
    | Mutated(caller: nat, change: Change, at: nat)
    | Saved(caller: nat, ok: bool, at: nat)
    | Loaded(at: nat, renamed: bool)
    | Crashed

  /** Memory is `None` before the first load. */
  datatype Pair = Pair(mem: Option<State>, disk: File)

  function Next(p: Pair, s: Step): Pair {
    match s
    case Mutated(_, change, at) =>
      p.(mem := Some(Apply(if p.mem.None? then Fresh(at).(lastUpdated := 0) else p.mem.value, change)))
    case Saved(_, ok, at) =>
      if p.mem.None? then p
      else
        var stamped := p.mem.value.(lastUpdated := at);
        Pair(Some(stamped), if ok then Stored(stamped) else p.disk)
    case Loaded(at, renamed) =>
      (match p.disk
       case Missing => p.(mem := Some(Fresh(at)))
       case Stored(state) => p.(mem := Some(state))
       case Corrupted => Pair(Some(Fresh(at)), if renamed then Missing else Corrupted))
    case Crashed => p.(mem := None)
  }

  function After(start: File, log: seq<Step>): Pair {
    if log == [] then Pair(None, start) else Next(After(start, log[..|log| - 1]), log[|log| - 1])
  }

  /** Callers between their change and their own save. */
  function Outstanding(log: seq<Step>): set<nat> {
    if log == [] then {}
    else
      var before := Outstanding(log[..|log| - 1]);
      match log[|log| - 1]
      case Mutated(caller, _, _) => before + {caller}
      case Saved(caller, _, _) => before - {caller}
      case Loaded(_, _) => before
      case Crashed => {}
  }

  /** The last save since the last load failed. */
  predicate SaveFailed(log: seq<Step>) {
    log != [] &&
    match log[|log| - 1]
    case Saved(_, ok, _) => !ok
    case Mutated(_, _, _) => SaveFailed(log[..|log| - 1])
    case Loaded(_, _) => false
    case Crashed => false
  }

  /** Equal but for the time of the last update. */
  predicate SameContent(a: State, b: State) {
    a.(lastUpdated := 0) == b.(lastUpdated := 0)
  }

  /** The file says what memory says: the same content, or no readable file and nothing filled in. */
  predicate InStep(p: Pair) {
    match p.mem
    case None => true
    case Some(m) =>
      match p.disk
      case Stored(d) => SameContent(m, d)
      case _ => SameContent(m, Fresh(m.createdAt))
  }

  /** Memory holds a change that no successful save has written. */
  predicate Dirty(log: seq<Step>) {
    log != [] &&
    match log[|log| - 1]
    case Mutated(_, _, _) => true
    case Saved(_, ok, _) => !ok && Dirty(log[..|log| - 1])
    case Loaded(_, _) => false
    case Crashed => false
  }

  /** Until a change is waiting to be written, memory and file agree. */
  lemma {:induction false} CleanIsInStep(start: File, log: seq<Step>)
    requires !Dirty(log)
    ensures InStep(After(start, log))
  {
    if log != [] {
      var before := log[..|log| - 1];
      match log[|log| - 1]
      case Saved(_, ok, _) =>
        if !ok {
          CleanIsInStep(start, before);
        }
      case Loaded(_, _) =>
      case Crashed =>
    }
  }

  /** A waiting change is owed by some caller, or its save failed. */
  lemma DirtyIsAccountedFor(log: seq<Step>)
    requires Dirty(log)
    ensures Outstanding(log) != {} || SaveFailed(log)
  {
    var last := log[|log| - 1];
    if last.Mutated? {
      assert last.caller in Outstanding(log);
    }
  }

  /** With any number of concurrent callers, whenever none of them is between its change and its
      save and the last save did not fail, the file holds what memory holds. */
  lemma QuietStateIsOnDisk(start: File, log: seq<Step>)
    requires Outstanding(log) == {} && !SaveFailed(log)
    ensures InStep(After(start, log))
  {
    if Dirty(log) {
      DirtyIsAccountedFor(log);
    }
    CleanIsInStep(start, log);
  }

  /** A crash at such a moment loses nothing: the next process loads the same settings. */
  lemma QuietCrashLosesNothing(start: File, log: seq<Step>, at: nat, renamed: bool)
    requires Outstanding(log) == {} && !SaveFailed(log) && After(start, log).mem.Some?
    ensures var reloaded := After(start, log + [Crashed, Loaded(at, renamed)]).mem;
            && reloaded.Some?
            && reloaded.value.(lastUpdated := 0, createdAt := 0) ==
               After(start, log).mem.value.(lastUpdated := 0, createdAt := 0)
  {
    QuietStateIsOnDisk(start, log);
    var crashed := log + [Crashed];
    assert crashed[..|log|] == log;
    assert log + [Crashed, Loaded(at, renamed)] == crashed + [Loaded(at, renamed)];
    assert (crashed + [Loaded(at, renamed)])[..|crashed|] == crashed;
  }

  /** Both assign the same fields. */
  predicate SameKind(a: Change, b: Change) {
    && (a.InstanceIdChange? <==> b.InstanceIdChange?)
    && (a.ConfigChange? <==> b.ConfigChange?)
    && (a.ActiveChange? <==> b.ActiveChange?)
  }

  /** After change `k` the process has neither stopped nor loaded, and nobody assigned the same fields. */
  ghost predicate LastOfItsKind(log: seq<Step>, k: nat) {
    && k < |log| && log[k].Mutated?
    && forall h :: k < h < |log| ==>
         log[h].Saved? || (log[h].Mutated? && !SameKind(log[h].change, log[k].change))
  }

  /** Changes are not lost to each other: memory holds the last one of each kind, whatever callers change
      or save in between. */
  lemma {:induction false} LastChangeHolds(start: File, log: seq<Step>, k: nat)
    requires LastOfItsKind(log, k)
    ensures After(start, log).mem.Some?
    ensures var now := After(start, log).mem.value;
            match log[k].change
            case InstanceIdChange(id) => now.instanceId == id
            case ConfigChange(version, hash, configId) =>
              now.version == version && now.hash == hash && now.configId == configId
            case ActiveChange(deployment) => now.active == deployment
  {
    if k < |log| - 1 {
      assert LastOfItsKind(log[..|log| - 1], k);
      LastChangeHolds(start, log[..|log| - 1], k);
    }
  }

  /** Where a save stops: each file operation can fail. */
  datatype Outcome = NoDirectory | TempNotWritten | NotRenamed | Written

  class StateManager {
    var mem: Option<State>
    var disk: File
    /** What the file held at first, and every critical section since. */
    ghost const start: File
    ghost var log: seq<Step>

    ghost predicate Valid()
      reads this
    {
      Pair(mem, disk) == After(start, log)
    }

    constructor (file: File)
      ensures Valid() && start == file && log == [] && disk == file && mem == None
    {
      mem, disk, start, log := None, file, file, [];
    }

    ghost method Record(s: Step)
      requires Pair(mem, disk) == Next(After(start, log), s)
      modifies this`log
      ensures Valid() && log == old(log) + [s]
    {
      log := log + [s];
      assert log[..|old(log)|] == old(log);
    }

    /** `Load`: a missing or unreadable state starts fresh; a read error changes nothing. */
    method Load(at: nat, readable: bool, renamed: bool) returns (ok: bool)
      requires Valid()
      modifies this
      ensures Valid() && ok == readable
      ensures ok ==> mem == Some(if old(disk).Stored? then old(disk).state else State("", "", "", "", "", at, at))
      ensures disk == if ok && old(disk).Corrupted? && renamed then Missing else old(disk)
      ensures !ok ==> mem == old(mem)
      ensures log == if ok then old(log) + [Loaded(at, renamed)] else old(log)
    {
      if !readable {
        return false;
      }
      match disk {
        case Missing => mem := Some(Fresh(at));
        case Stored(state) => mem := Some(state);
        case Corrupted =>
          mem := Some(Fresh(at));
          if renamed {
            disk := Missing;
          }
      }
      Record(Loaded(at, renamed));
      ok := true;
    }

    /** `Save`: writes a temporary file and renames it, all under the lock. */
    method Save(caller: nat, at: nat, outcome: Outcome) returns (ok: bool)
      requires Valid()
      modifies this
      ensures Valid() && ok == (old(mem).Some? && outcome.Written?)
      ensures log == old(log) + [Saved(caller, ok, at)]
      ensures mem == if old(mem).Some? then Some(old(mem).value.(lastUpdated := at)) else None
      ensures if ok then mem.Some? && disk == Stored(mem.value) else disk == old(disk)
    {
      ok := false;
      if mem.Some? {
        mem := Some(mem.value.(lastUpdated := at));
        ok := outcome.Written?;
        if ok {
          disk := Stored(mem.value);
        }
      }
      Record(Saved(caller, ok, at));
    }

    /** First half of a setter. */
    method Mutate(caller: nat, change: Change, at: nat)
      requires Valid()
      modifies this
      ensures Valid() && log == old(log) + [Mutated(caller, change, at)]
      ensures disk == old(disk)
      ensures var before := if old(mem).Some? then old(mem).value else State("", "", "", "", "", 0, at);
              mem == Some(match change
                          case InstanceIdChange(id) => before.(instanceId := id)
                          case ConfigChange(version, hash, configId) =>
                            before.(version := version, hash := hash, configId := configId)
                          case ActiveChange(deployment) => before.(active := deployment))
    {
      if mem.None? {
        mem := Some(Fresh(at).(lastUpdated := 0));
      }
      mem := Some(Apply(mem.value, change));
      Record(Mutated(caller, change, at));
    }

    /** Any number of other callers' critical sections. */
    method Others(caller: nat)
      requires Valid()
      modifies this
      ensures Valid() && old(log) <= log
      ensures caller in Outstanding(old(log)) ==> caller in Outstanding(log)
      ensures old(mem).Some? ==> mem.Some?
    {
      var rounds: nat := *;
      while rounds > 0
        invariant Valid() && old(log) <= log
        invariant caller in Outstanding(old(log)) ==> caller in Outstanding(log)
        invariant old(mem).Some? ==> mem.Some?
      {
        var other: nat, at: nat, change: Change, outcome: Outcome, mutates: bool := *, *, *, *, *;
        ghost var before := log;
        if other != caller {
          if mutates {
            Mutate(other, change, at);
          } else {
            var saved := Save(other, at, outcome);
          }
        }
        assert log != before ==> log[..|before|] == before;
        rounds := rounds - 1;
      }
    }

    /** A setter: its change, whatever others do, and its save. When it returns without an error the
        file is what memory is, and no change of this caller is waiting. */
    method Set(caller: nat, change: Change, at: nat, later: nat, outcome: Outcome) returns (ok: bool)
      requires Valid()
      modifies this
      ensures Valid() && ok == outcome.Written?
      ensures old(log) + [Mutated(caller, change, at)] <= log && log[|log| - 1] == Saved(caller, ok, later)
      ensures caller !in Outstanding(log)
      ensures ok ==> mem.Some? && disk == Stored(mem.value)
    {
      Mutate(caller, change, at);
      Others(caller);
      ghost var before := log;
      ok := Save(caller, later, outcome);
      assert log[..|before|] == before;
    }
  }
}
