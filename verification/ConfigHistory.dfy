/** Configurations and their append-only versions, under the create, update, rollback and delete
    handlers. Requests are served one after another; any store call may fail. */
module ConfigHistory {
  import opened HubTypes

  datatype Config = Config(name: string, current: nat, deleted: bool)

  datatype Version = Version(content: string, hash: Digest)

  datatype VersionKey = VersionKey(config: Id, number: nat)

  datatype Tables = Tables(configs: map<Id, Config>, versions: map<VersionKey, Version>)

  datatype Request =
    | Create(id: Id, name: string, content: string)
    | Update(id: Id, newName: Option<string>, newContent: Option<string>)
    | Rollback(id: Id, number: int)
    | Delete(id: Id)

  datatype Response = Ok | BadRequest | NotFound | InternalError

  /** The store calls a handler may make, each at most once. */
  datatype Call = ReadConfig | ReadVersion | AddConfig | AddVersion | WriteRow

  /** One request, and which of its store calls fail of themselves. */
  datatype Served = Served(request: Request, faults: set<Call>)

  function NewVersion(content: string): Version {
    Version(content, Digest(content))
  }

  /** Names are unique among all rows, deleted ones included. */
  predicate NameTaken(t: Tables, id: Id, name: string) {
    exists i :: i in t.configs && i != id && t.configs[i].name == name
  }

  predicate Live(t: Tables, id: Id) {
    id in t.configs && !t.configs[id].deleted
  }

  /** `INSERT INTO config_versions`, unless that version of the configuration exists. */
  function Append(t: Tables, id: Id, number: nat, content: string, faults: set<Call>): Option<Tables> {
    if AddVersion in faults || VersionKey(id, number) in t.versions then None
    else Some(t.(versions := t.versions[VersionKey(id, number) := NewVersion(content)]))
  }

  /** `UPDATE configs` of a live row, unless another row has the name. */
  function WriteConfig(t: Tables, id: Id, row: Config, faults: set<Call>): Option<Tables> {
    if WriteRow in faults || !Live(t, id) || NameTaken(t, id, row.name) then None
    else Some(t.(configs := t.configs[id := row]))
  }

  /** Appends the next version of a live configuration and then writes its row. When only the first
      succeeds, the version stays. */
  function AppendAndWrite(t: Tables, id: Id, name: string, content: string, faults: set<Call>): (Tables, Response)
    requires Live(t, id)
  {
    var next := t.configs[id].current + 1;
    match Append(t, id, next, content, faults)
    case None => (t, InternalError)
    case Some(appended) =>
      match WriteConfig(appended, id, t.configs[id].(name := name, current := next), faults)
      case None => (appended, InternalError)
      case Some(written) => (written, Ok)
  }

  function ServeCreate(t: Tables, id: Id, name: string, content: string, faults: set<Call>): (Tables, Response) {
    if name == "" || content == "" then (t, BadRequest)
    else if AddConfig in faults || id in t.configs || NameTaken(t, id, name) then (t, InternalError)
    else
      var created := t.(configs := t.configs[id := Config(name, 1, false)]);
      match Append(created, id, 1, content, faults)
      case None => (created, InternalError)
      case Some(done) => (done, Ok)
  }

  function ServeUpdate(t: Tables, id: Id, newName: Option<string>, newContent: Option<string>, faults: set<Call>):
      (Tables, Response) {
    if ReadConfig in faults then (t, InternalError)
    else if !Live(t, id) then (t, NotFound)
    else
      var name := if newName.Some? then newName.value else t.configs[id].name;
      match newContent
      case Some(content) => AppendAndWrite(t, id, name, content, faults)
      case None =>
        match WriteConfig(t, id, t.configs[id].(name := name), faults)
        case None => (t, InternalError)
        case Some(written) => (written, Ok)
  }

  function ServeRollback(t: Tables, id: Id, number: int, faults: set<Call>): (Tables, Response) {
    if ReadConfig in faults then (t, InternalError)
    else if !Live(t, id) then (t, NotFound)
    else if number <= 0 then (t, BadRequest)
    else if ReadVersion in faults then (t, InternalError)
    else if VersionKey(id, number) !in t.versions then (t, NotFound)
    else AppendAndWrite(t, id, t.configs[id].name, t.versions[VersionKey(id, number)].content, faults)
  }

  function ServeDelete(t: Tables, id: Id, faults: set<Call>): (Tables, Response) {
    if WriteRow in faults then (t, InternalError)
    else if !Live(t, id) then (t, NotFound)
    else (t.(configs := t.configs[id := t.configs[id].(deleted := true)]), Ok)
  }

  function Serve(t: Tables, s: Served): (Tables, Response) {
    match s.request
    case Create(id, name, content) => ServeCreate(t, id, name, content, s.faults)
    case Update(id, name, content) => ServeUpdate(t, id, name, content, s.faults)
    case Rollback(id, number) => ServeRollback(t, id, number, s.faults)
    case Delete(id) => ServeDelete(t, id, s.faults)
  }

  /** Tables after a history of requests, from empty ones. */
  function After(log: seq<Served>): Tables {
    if log == [] then Tables(map[], map[]) else Serve(After(log[..|log| - 1]), log[|log| - 1]).0
  }

  /** Lowest and highest version of a configuration. Version 1 is missing only if the second half of
      its creation failed, and one beyond the current exists only if its row could not be written. */
  function Lowest(t: Tables, id: Id): nat {
    if VersionKey(id, 1) in t.versions then 1 else 2
  }

  function Highest(t: Tables, id: Id): nat
    requires id in t.configs
  {
    var current := t.configs[id].current;
    if VersionKey(id, current + 1) in t.versions then current + 1 else current
  }

  /** Versions without gaps, for a row that exists. */
  ghost predicate GapFree(t: Tables, id: Id) {
    if id in t.configs then
      && t.configs[id].current >= 1
      && forall v: nat :: VersionKey(id, v) in t.versions <==> Lowest(t, id) <= v <= Highest(t, id)
    else
      forall v: nat :: VersionKey(id, v) !in t.versions
  }

  ghost predicate UniqueNames(t: Tables) {
    forall i, j :: i in t.configs && j in t.configs && t.configs[i].name == t.configs[j].name ==> i == j
  }

  /** The state a configuration should be in: its versions are exactly 1 to the current one. */
  ghost predicate Healthy(t: Tables, id: Id) {
    id in t.configs && forall v: nat :: VersionKey(id, v) in t.versions <==> 1 <= v <= t.configs[id].current
  }

  /** A request that appends a version of `id` and then fails to write its row, or creates a row and
      then fails to append. A caller can see it coming: the store fails, or the name is taken. */
  predicate Breaks(t: Tables, s: Served, id: Id) {
    var f := s.faults;
    match s.request
    case Create(i, name, content) =>
      i == id && name != "" && content != "" && AddConfig !in f && id !in t.configs && !NameTaken(t, id, name) &&
      AddVersion in f
    case Update(i, newName, newContent) =>
      i == id && newContent.Some? && ReadConfig !in f && Live(t, id) && AddVersion !in f &&
      (WriteRow in f || (newName.Some? && NameTaken(t, id, newName.value)))
    case Rollback(i, number) =>
      i == id && ReadConfig !in f && Live(t, id) && number > 0 && ReadVersion !in f &&
      VersionKey(id, number) in t.versions && AddVersion !in f && WriteRow in f
    case Delete(_) => false
  }

  /** What every handler, whatever fails, leaves alone: versions that exist, and other configurations. */
  lemma ServeFrame(t: Tables, s: Served)
    ensures forall k :: k in t.versions ==> k in Serve(t, s).0.versions && Serve(t, s).0.versions[k] == t.versions[k]
    ensures forall k :: k in Serve(t, s).0.versions && k.config != s.request.id ==> k in t.versions
    ensures forall i :: i in t.configs ==> i in Serve(t, s).0.configs
    ensures forall i :: i in Serve(t, s).0.configs && i != s.request.id ==>
              i in t.configs && Serve(t, s).0.configs[i] == t.configs[i]
  {
  }

  lemma ServeKeepsNames(t: Tables, s: Served)
    requires UniqueNames(t)
    ensures UniqueNames(Serve(t, s).0)
  {
    hide AppendAndWrite;
    match s.request
    case Create(_, _, _) =>
    case Update(i, newName, newContent) =>
      if Live(t, i) && newContent.Some? {
        AppendKeepsNames(t, i, if newName.Some? then newName.value else t.configs[i].name, newContent.value, s.faults);
      }
    case Rollback(i, number) =>
      if Live(t, i) && number > 0 && VersionKey(i, number) in t.versions {
        AppendKeepsNames(t, i, t.configs[i].name, t.versions[VersionKey(i, number)].content, s.faults);
      }
    case Delete(_) =>
  }

  lemma AppendKeepsNames(t: Tables, i: Id, name: string, content: string, faults: set<Call>)
    requires UniqueNames(t) && Live(t, i)
    ensures UniqueNames(AppendAndWrite(t, i, name, content, faults).0)
  {
  }

  lemma AppendKeepsGapFree(t: Tables, i: Id, name: string, content: string, faults: set<Call>, id: Id)
    requires Live(t, i) && GapFree(t, id)
    ensures GapFree(AppendAndWrite(t, i, name, content, faults).0, id)
  {
  }

  lemma CreateKeepsGapFree(t: Tables, i: Id, name: string, content: string, faults: set<Call>, id: Id)
    requires GapFree(t, id)
    ensures GapFree(ServeCreate(t, i, name, content, faults).0, id)
  {
  }

  lemma ServeKeepsGapFree(t: Tables, s: Served, id: Id)
    requires GapFree(t, id)
    ensures GapFree(Serve(t, s).0, id)
  {
    hide AppendAndWrite, ServeCreate;
    match s.request
    case Create(i, name, content) => CreateKeepsGapFree(t, i, name, content, s.faults, id);
    case Update(i, newName, newContent) =>
      if Live(t, i) && newContent.Some? {
        var name := if newName.Some? then newName.value else t.configs[i].name;
        AppendKeepsGapFree(t, i, name, newContent.value, s.faults, id);
      }
    case Rollback(i, number) =>
      if Live(t, i) && number > 0 && VersionKey(i, number) in t.versions {
        var content := t.versions[VersionKey(i, number)].content;
        AppendKeepsGapFree(t, i, t.configs[i].name, content, s.faults, id);
      }
    case Delete(_) =>
  }

  lemma ServeKeepsHashes(t: Tables, s: Served)
    requires forall k :: k in t.versions ==> t.versions[k].hash == Digest(t.versions[k].content)
    ensures forall k :: k in Serve(t, s).0.versions ==>
              Serve(t, s).0.versions[k].hash == Digest(Serve(t, s).0.versions[k].content)
  {
  }

  /** One request breaks a healthy configuration exactly when the caller could have seen it coming. */
  lemma HealthIffNotBroken(t: Tables, s: Served, id: Id)
    requires UniqueNames(t) && Healthy(t, id) && t.configs[id].current >= 1
    ensures Healthy(Serve(t, s).0, id) <==> !Breaks(t, s, id)
  {
    match s.request
    case Create(i, _, _) =>
    case Update(i, newName, newContent) =>
      if i == id && Live(t, id) && newContent.Some? {
        var name := if newName.Some? then newName.value else t.configs[id].name;
        AppendHealthIff(t, id, name, newContent.value, s.faults);
      }
    case Rollback(i, number) =>
      if i == id && Live(t, id) && number > 0 && VersionKey(id, number) in t.versions {
        AppendHealthIff(t, id, t.configs[id].name, t.versions[VersionKey(id, number)].content, s.faults);
      }
    case Delete(_) =>
  }

  /** Appending to a healthy configuration breaks it exactly if the version goes in and the row does not. */
  lemma AppendHealthIff(t: Tables, id: Id, name: string, content: string, faults: set<Call>)
    requires Live(t, id) && Healthy(t, id)
    ensures Healthy(AppendAndWrite(t, id, name, content, faults).0, id) <==>
            !(AddVersion !in faults && (WriteRow in faults || NameTaken(t, id, name)))
  {
    var after := AppendAndWrite(t, id, name, content, faults).0;
    assert VersionKey(id, t.configs[id].current + 1) !in t.versions;
    assert AddVersion !in faults ==> VersionKey(id, t.configs[id].current + 1) in after.versions;
  }

  /** A configuration that has just been created is healthy unless its first version failed. */
  lemma CreatedHealthyIffNotBroken(t: Tables, s: Served, id: Id)
    requires GapFree(t, id) && id !in t.configs && id in Serve(t, s).0.configs
    ensures Healthy(Serve(t, s).0, id) <==> !Breaks(t, s, id)
    ensures VersionKey(id, 1) in Serve(t, s).0.versions <==> !Breaks(t, s, id)
    ensures s.request.Create?
  {
    ServeFrame(t, s);
    var after := Serve(t, s).0;
    assert Healthy(after, id) ==> VersionKey(id, 1) in after.versions;
  }

  /** Once the version after the current one exists, no request gets the configuration any further. */
  ghost predicate Wedged(t: Tables, id: Id) {
    id in t.configs && VersionKey(id, t.configs[id].current + 1) in t.versions
  }

  /** A request for another version of `id`. */
  predicate AsksForVersion(r: Request, id: Id) {
    r.id == id && (r.Rollback? || (r.Update? && r.newContent.Some?))
  }

  lemma WedgedStaysWedged(t: Tables, s: Served, id: Id)
    requires Wedged(t, id)
    ensures Wedged(Serve(t, s).0, id) && Serve(t, s).0.configs[id].current == t.configs[id].current
    ensures forall v: nat :: VersionKey(id, v) in Serve(t, s).0.versions <==> VersionKey(id, v) in t.versions
    ensures AsksForVersion(s.request, id) ==> Serve(t, s).1 != Ok
  {
    ServeFrame(t, s);
  }

  /** However the history goes on, a wedged configuration gets no new version, and every later content
      update or rollback of it is refused. */
  lemma {:induction false} WedgedForever(log: seq<Served>, n: nat, id: Id)
    requires n <= |log| && Wedged(After(log[..n]), id)
    ensures Wedged(After(log), id) && After(log).configs[id].current == After(log[..n]).configs[id].current
    ensures forall v: nat :: VersionKey(id, v) in After(log).versions <==> VersionKey(id, v) in After(log[..n]).versions
    ensures forall k {:trigger log[k]} :: n <= k < |log| && AsksForVersion(log[k].request, id) ==>
              Serve(After(log[..k]), log[k]).1 != Ok
  {
    hide Serve, AsksForVersion;
    if n == |log| {
      assert log[..n] == log;
    } else {
      var last := |log| - 1;
      var before := log[..last];
      assert before[..n] == log[..n] && forall k :: 0 <= k < last ==> before[..k] == log[..k];
      WedgedForever(before, n, id);
      WedgedStaysWedged(After(before), log[last], id);
    }
  }

  /** Version 1 is written when a configuration is created, or never. */
  lemma FirstVersionNowOrNever(t: Tables, s: Served, id: Id)
    requires id in t.configs && t.configs[id].current >= 1 && VersionKey(id, 1) !in t.versions
    ensures id in Serve(t, s).0.configs && Serve(t, s).0.configs[id].current >= 1
    ensures VersionKey(id, 1) !in Serve(t, s).0.versions
  {
    ServeFrame(t, s);
  }

  /** Every history keeps names unique, versions free of gaps and hashes true to their content. */
  lemma {:induction false} HistoryIsSound(log: seq<Served>)
    ensures UniqueNames(After(log)) && forall id :: GapFree(After(log), id)
    ensures forall k :: k in After(log).versions ==> After(log).versions[k].hash == Digest(After(log).versions[k].content)
  {
    if log != [] {
      var before := log[..|log| - 1];
      HistoryIsSound(before);
      ServeKeepsNames(After(before), log[|log| - 1]);
      ServeKeepsHashes(After(before), log[|log| - 1]);
      forall id ensures GapFree(After(log), id) {
        ServeKeepsGapFree(After(before), log[|log| - 1], id);
      }
    }
  }

  /** Versions are exactly 1 to the current one if and only if no request in the history broke them. */
  lemma {:induction false} HealthyIffNeverBroken(log: seq<Served>, id: Id)
    requires id in After(log).configs
    ensures Healthy(After(log), id) <==> forall k :: 0 <= k < |log| ==> !Breaks(After(log[..k]), log[k], id)
  {
    hide Serve, Breaks, GapFree;
    var last := |log| - 1;
    var before := log[..last];
    var t := After(before);
    HistoryIsSound(before);
    assert GapFree(t, id);
    assert forall k :: 0 <= k < last ==> before[..k] == log[..k];
    if id in t.configs {
      HealthyIffNeverBroken(before, id);
      HealthyOrLost(t, id);
      if Healthy(t, id) {
        HealthIffNotBroken(t, log[last], id);
      } else if Wedged(t, id) {
        WedgedStaysWedged(t, log[last], id);
        WedgedIsUnhealthy(After(log), id);
      } else {
        FirstVersionNowOrNever(t, log[last], id);
        FirstMissingIsUnhealthy(After(log), id);
      }
    } else {
      NothingToBreak(before, id);
      CreatedHealthyIffNotBroken(t, log[last], id);
    }
  }

  lemma HealthyOrLost(t: Tables, id: Id)
    requires id in t.configs && GapFree(t, id)
    ensures t.configs[id].current >= 1
    ensures Healthy(t, id) || Wedged(t, id) || VersionKey(id, 1) !in t.versions
  {
  }

  lemma WedgedIsUnhealthy(t: Tables, id: Id)
    requires Wedged(t, id)
    ensures !Healthy(t, id)
  {
  }

  lemma FirstMissingIsUnhealthy(t: Tables, id: Id)
    requires id in t.configs && t.configs[id].current >= 1 && VersionKey(id, 1) !in t.versions
    ensures !Healthy(t, id)
  {
  }

  /** Before a configuration exists, no request breaks it: one that did would have created it. */
  lemma {:induction false} NothingToBreak(log: seq<Served>, id: Id)
    requires id !in After(log).configs
    ensures forall k :: 0 <= k < |log| ==> !Breaks(After(log[..k]), log[k], id)
  {
    if log != [] {
      var last := |log| - 1;
      var before := log[..last];
      BreakingCreates(After(before), log[last], id);
      hide Serve, Breaks;
      NothingToBreak(before, id);
      forall k | 0 <= k < last ensures !Breaks(After(log[..k]), log[k], id) {
        assert before[..k] == log[..k] && before[k] == log[k];
      }
    }
  }

  /** A request that breaks a configuration leaves it with a row, and rows are never lost. */
  lemma BreakingCreates(t: Tables, s: Served, id: Id)
    requires id !in Serve(t, s).0.configs
    ensures id !in t.configs && !Breaks(t, s, id)
  {
    ServeFrame(t, s);
  }

  /** With no store failures and no update to a name that is taken, every configuration is healthy. */
  lemma FaultlessHistoriesAreHealthy(log: seq<Served>, id: Id)
    requires forall k :: 0 <= k < |log| ==> log[k].faults == {}
    requires forall k :: 0 <= k < |log| && log[k].request.Update? && log[k].request.newName.Some? ==>
               !NameTaken(After(log[..k]), log[k].request.id, log[k].request.newName.value)
    requires id in After(log).configs
    ensures Healthy(After(log), id)
  {
    HealthyIffNeverBroken(log, id);
  }

  /** A version, once written, is there with the same content ever after. */
  lemma {:induction false} VersionsNeverChange(log: seq<Served>, n: nat, k: VersionKey)
    requires n <= |log| && k in After(log[..n]).versions
    ensures k in After(log).versions && After(log).versions[k] == After(log[..n]).versions[k]
  {
    if n == |log| {
      assert log[..n] == log;
    } else {
      var before := log[..|log| - 1];
      assert before[..n] == log[..n];
      VersionsNeverChange(before, n, k);
      ServeFrame(After(before), log[|log| - 1]);
    }
  }

  // ----- what the requests store

  /** A creation that answers Ok adds a row at version 1 and the content that was sent as that version, and
      nothing else. It does so exactly for a new id, a name and a content, a name nobody has, and a store
      that takes both. */
  lemma CreateStores(t: Tables, id: Id, name: string, content: string, faults: set<Call>)
    requires GapFree(t, id)
    ensures var (after, response) := Serve(t, Served(Create(id, name, content), faults));
            && (response == BadRequest <==> name == "" || content == "")
            && (response == Ok <==>
                name != "" && content != "" && id !in t.configs && (forall i :: i in t.configs ==> t.configs[i].name != name)
                && AddConfig !in faults && AddVersion !in faults)
            && (response == Ok ==>
                  after == Tables(t.configs[id := Config(name, 1, false)],
                                  t.versions[VersionKey(id, 1) := Version(content, Digest(content))]))
            && (response == NotFound ==> false) && (response != Ok ==> after.versions == t.versions)
  {
  }

  /** An update that answers Ok leaves the row with the name that was asked for. With a content it appends
      that content as the version after the current one, and moves the row there; nothing else changes. It
      does so exactly for a live row, a name nobody else has, a version number that is free, and a store
      that takes every write. */
  lemma UpdateStores(t: Tables, id: Id, newName: Option<string>, newContent: Option<string>, faults: set<Call>)
    requires UniqueNames(t)
    ensures var (after, response) := Serve(t, Served(Update(id, newName, newContent), faults));
            && (response == NotFound <==> ReadConfig !in faults && !(id in t.configs && !t.configs[id].deleted))
            && (response == BadRequest ==> false)
            && (response == Ok <==>
                ReadConfig !in faults && WriteRow !in faults && id in t.configs && !t.configs[id].deleted
                && (newName.Some? ==> forall i :: i in t.configs && i != id ==> t.configs[i].name != newName.value)
                && (newContent.Some? ==> AddVersion !in faults && VersionKey(id, t.configs[id].current + 1) !in t.versions))
            && (response == Ok ==>
                  var current := t.configs[id].current;
                  var name := if newName.Some? then newName.value else t.configs[id].name;
                  after == if newContent.None? then Tables(t.configs[id := Config(name, current, false)], t.versions)
                           else Tables(t.configs[id := Config(name, current + 1, false)],
                                       t.versions[VersionKey(id, current + 1) :=
                                                    Version(newContent.value, Digest(newContent.value))]))
  {
  }

  /** A deletion that answers Ok marks a live row and changes nothing else; any other changes nothing. */
  lemma DeleteStores(t: Tables, id: Id, faults: set<Call>)
    ensures var (after, response) := Serve(t, Served(Delete(id), faults));
            && (response == Ok <==> WriteRow !in faults && id in t.configs && !t.configs[id].deleted)
            && (response == NotFound <==> WriteRow !in faults && !(id in t.configs && !t.configs[id].deleted))
            && (response == BadRequest ==> false)
            && after == if response == Ok then t.(configs := t.configs[id := t.configs[id].(deleted := true)]) else t
  {
  }

  /** A rollback answers Ok exactly for a live row, a positive number with a stored version, a version number
      that is free, and a store that takes every write. */
  lemma RollbackAnswers(t: Tables, id: Id, number: int, faults: set<Call>)
    requires UniqueNames(t)
    ensures var response := Serve(t, Served(Rollback(id, number), faults)).1;
            var live := id in t.configs && !t.configs[id].deleted;
            && (response == BadRequest <==> ReadConfig !in faults && live && number <= 0)
            && (response == NotFound <==>
                ReadConfig !in faults &&
                (!live || (number > 0 && ReadVersion !in faults && VersionKey(id, number) !in t.versions)))
            && (response == Ok <==>
                live && number > 0 && VersionKey(id, number) in t.versions
                && VersionKey(id, t.configs[id].current + 1) !in t.versions
                && ReadConfig !in faults && ReadVersion !in faults && AddVersion !in faults && WriteRow !in faults)
  {
  }

  /** The request, served in `t`, appends version `k` with that content: a creation its own as version 1, an
      update its own and a rollback that of its target as the version after the current one. */
  ghost predicate Appends(t: Tables, r: Request, k: VersionKey, content: string) {
    && k.config == r.id && k !in t.versions
    && match r
       case Create(id, _, c) => id !in t.configs && k.number == 1 && content == c
       case Update(id, _, c) => id in t.configs && k.number == t.configs[id].current + 1 && c == Some(content)
       case Rollback(id, number) =>
         && id in t.configs && k.number == t.configs[id].current + 1
         && number > 0 && VersionKey(id, number) in t.versions && content == t.versions[VersionKey(id, number)].content
       case Delete(_) => false
  }

  lemma NewVersionAppended(t: Tables, s: Served, k: VersionKey)
    requires k !in t.versions && k in Serve(t, s).0.versions
    ensures Appends(t, s.request, k, Serve(t, s).0.versions[k].content)
  {
  }

  /** Every stored version holds the content of the request that appended it. */
  lemma {:induction false} ContentHasSource(log: seq<Served>, k: VersionKey) returns (n: nat)
    requires k in After(log).versions
    ensures n < |log| && Appends(After(log[..n]), log[n].request, k, After(log).versions[k].content)
  {
    hide Serve, Appends;
    var last := |log| - 1;
    var before := log[..last];
    ServeFrame(After(before), log[last]);
    if k in After(before).versions {
      n := ContentHasSource(before, k);
      assert before[..n] == log[..n];
    } else {
      n := last;
      NewVersionAppended(After(before), log[last], k);
    }
  }

  /** A rollback that succeeds appends a copy of its target, and nothing else. */
  lemma RollbackAppendsCopy(t: Tables, id: Id, number: int, faults: set<Call>)
    requires forall k :: k in t.versions ==> t.versions[k].hash == Digest(t.versions[k].content)
    requires Serve(t, Served(Rollback(id, number), faults)).1 == Ok
    ensures number >= 1 && id in t.configs && VersionKey(id, number) in t.versions
    ensures var next := t.configs[id].current + 1;
            && VersionKey(id, next) !in t.versions
            && Serve(t, Served(Rollback(id, number), faults)).0 ==
               Tables(t.configs[id := t.configs[id].(current := next)],
                      t.versions[VersionKey(id, next) := t.versions[VersionKey(id, number)]])
  {
  }

  /** The creation of a configuration broke: its row was written and its first version was not. */
  ghost predicate CreationBroke(log: seq<Served>, id: Id) {
    exists k :: 0 <= k < |log| && log[k].request.Create? && Breaks(After(log[..k]), log[k], id)
  }

  lemma {:induction false} FirstVersionIff(log: seq<Served>, id: Id)
    requires id in After(log).configs
    ensures VersionKey(id, 1) in After(log).versions <==> !CreationBroke(log, id)
  {
    hide Serve;
    var last := |log| - 1;
    var before := log[..last];
    var t := After(before);
    HistoryIsSound(before);
    assert GapFree(t, id);
    ServeFrame(t, log[last]);
    assert forall k :: 0 <= k < last ==> before[..k] == log[..k];
    if id in t.configs {
      FirstVersionIff(before, id);
      assert CreationBroke(log, id) <==> CreationBroke(before, id);
      if VersionKey(id, 1) !in t.versions {
        FirstVersionNowOrNever(t, log[last], id);
      }
    } else {
      NothingToBreak(before, id);
      assert log[..last] == before;
      CreatedHealthyIffNotBroken(t, log[last], id);
    }
  }

  /** The version before a stored one is stored too, then and whenever a deployment of the later one
      rolls back, unless it is the first version of a configuration whose creation broke. */
  lemma PreviousVersionIff(log: seq<Served>, n: nat, id: Id, v: nat)
    requires n <= |log| && v > 1 && VersionKey(id, v) in After(log[..n]).versions
    ensures VersionKey(id, v - 1) in After(log).versions <==> !(v == 2 && CreationBroke(log, id))
    ensures VersionKey(id, v - 1) in After(log[..n]).versions <==> VersionKey(id, v - 1) in After(log).versions
  {
    HistoryIsSound(log);
    HistoryIsSound(log[..n]);
    assert GapFree(After(log), id) && GapFree(After(log[..n]), id);
    VersionsNeverChange(log, n, VersionKey(id, v));
    FirstVersionIff(log, id);
    if VersionKey(id, v - 1) in After(log[..n]).versions {
      VersionsNeverChange(log, n, VersionKey(id, v - 1));
    } else {
      FirstVersionStaysMissing(log, n, id);
    }
  }

  lemma {:induction false} FirstVersionStaysMissing(log: seq<Served>, n: nat, id: Id)
    requires n <= |log| && id in After(log[..n]).configs && VersionKey(id, 1) !in After(log[..n]).versions
    ensures id in After(log).configs && VersionKey(id, 1) !in After(log).versions
  {
    HistoryIsSound(log);
    if n == |log| {
      assert log[..n] == log;
    } else {
      var before := log[..|log| - 1];
      assert before[..n] == log[..n];
      FirstVersionStaysMissing(before, n, id);
      HistoryIsSound(before);
      assert GapFree(After(before), id);
      FirstVersionNowOrNever(After(before), log[|log| - 1], id);
    }
  }

  class Handler {
    var tables: Tables
    /** Every request served. */
    ghost var log: seq<Served>

    ghost predicate Valid()
      reads this
    {
      tables == After(log)
    }

    constructor ()
      ensures Valid() && log == []
    {
      tables, log := Tables(map[], map[]), [];
    }

    /** `Store.CreateConfig`: the row starts at version 1. */
    method StoreConfig(id: Id, name: string, faults: set<Call>) returns (ok: bool)
      modifies this`tables
      ensures ok <==> AddConfig !in faults && id !in old(tables).configs && !NameTaken(old(tables), id, name)
      ensures tables == if ok then old(tables).(configs := old(tables).configs[id := Config(name, 1, false)])
                        else old(tables)
    {
      ok := AddConfig !in faults && id !in tables.configs && !NameTaken(tables, id, name);
      if ok {
        tables := tables.(configs := tables.configs[id := Config(name, 1, false)]);
      }
    }

    /** `Store.CreateConfigVersion`. */
    method StoreVersion(id: Id, number: nat, content: string, faults: set<Call>) returns (ok: bool)
      modifies this`tables
      ensures ok <==> AddVersion !in faults && VersionKey(id, number) !in old(tables).versions
      ensures tables == if ok then old(tables).(versions :=
                          old(tables).versions[VersionKey(id, number) := Version(content, Digest(content))]) else old(tables)
    {
      ok := AddVersion !in faults && VersionKey(id, number) !in tables.versions;
      if ok {
        tables := tables.(versions := tables.versions[VersionKey(id, number) := Version(content, Digest(content))]);
      }
    }

    /** `Store.UpdateConfig`. */
    method UpdateRow(id: Id, row: Config, faults: set<Call>) returns (ok: bool)
      modifies this`tables
      ensures ok <==> WriteRow !in faults && Live(old(tables), id) && !NameTaken(old(tables), id, row.name)
      ensures tables == if ok then old(tables).(configs := old(tables).configs[id := row]) else old(tables)
    {
      ok := WriteRow !in faults && Live(tables, id) && !NameTaken(tables, id, row.name);
      if ok {
        tables := tables.(configs := tables.configs[id := row]);
      }
    }

    ghost method Record(s: Served)
      requires tables == Serve(After(log), s).0
      modifies this`log
      ensures Valid() && log == old(log) + [s]
    {
      assert (log + [s])[..|log|] == log;
      log := log + [s];
    }

    method CreateConfig(id: Id, name: string, content: string, faults: set<Call>) returns (response: Response)
      requires Valid()
      modifies this
      ensures Valid() && log == old(log) + [Served(Create(id, name, content), faults)]
      ensures response == Serve(old(tables), Served(Create(id, name, content), faults)).1
      ensures response == BadRequest <==> name == "" || content == ""
      ensures response == Ok ==>
                tables == Tables(old(tables).configs[id := Config(name, 1, false)],
                                 old(tables).versions[VersionKey(id, 1) := Version(content, Digest(content))])
      ensures response != Ok ==> tables.versions == old(tables).versions
    {
      HistoryIsSound(log);
      assert GapFree(tables, id);
      CreateStores(tables, id, name, content, faults);
      if name == "" || content == "" {
        response := BadRequest;
      } else {
        var ok := StoreConfig(id, name, faults);
        if ok {
          ok := StoreVersion(id, 1, content, faults);
        }
        response := if ok then Ok else InternalError;
      }
      Record(Served(Create(id, name, content), faults));
    }

    method UpdateConfig(id: Id, newName: Option<string>, newContent: Option<string>, faults: set<Call>)
      returns (response: Response)
      requires Valid()
      modifies this
      ensures Valid() && log == old(log) + [Served(Update(id, newName, newContent), faults)]
      ensures response == Serve(old(tables), Served(Update(id, newName, newContent), faults)).1
      ensures response == Ok ==>
                && id in old(tables).configs
                && var row := old(tables).configs[id];
                   var name := if newName.Some? then newName.value else row.name;
                   tables == if newContent.None? then Tables(old(tables).configs[id := Config(name, row.current, false)],
                                                             old(tables).versions)
                             else Tables(old(tables).configs[id := Config(name, row.current + 1, false)],
                                         old(tables).versions[VersionKey(id, row.current + 1) :=
                                                                Version(newContent.value, Digest(newContent.value))])
    {
      HistoryIsSound(log);
      UpdateStores(tables, id, newName, newContent, faults);
      if ReadConfig in faults {
        response := InternalError;
      } else if !Live(tables, id) {
        response := NotFound;
      } else {
        var cfg := tables.configs[id];
        if newName.Some? {
          cfg := cfg.(name := newName.value);
        }
        var ok := true;
        if newContent.Some? {
          ok := StoreVersion(id, cfg.current + 1, newContent.value, faults);
          cfg := cfg.(current := cfg.current + 1);
        }
        if ok {
          ok := UpdateRow(id, cfg, faults);
        }
        response := if ok then Ok else InternalError;
      }
      Record(Served(Update(id, newName, newContent), faults));
    }

    method RollbackConfig(id: Id, number: int, faults: set<Call>) returns (response: Response)
      requires Valid()
      modifies this
      ensures Valid() && log == old(log) + [Served(Rollback(id, number), faults)]
      ensures response == Serve(old(tables), Served(Rollback(id, number), faults)).1
      ensures response == Ok ==>
                && number > 0 && id in old(tables).configs && VersionKey(id, number) in old(tables).versions
                && var next, target := old(tables).configs[id].current + 1, old(tables).versions[VersionKey(id, number)];
                   tables == Tables(old(tables).configs[id := old(tables).configs[id].(current := next)],
                                    old(tables).versions[VersionKey(id, next) := target])
    {
      HistoryIsSound(log);
      if Serve(tables, Served(Rollback(id, number), faults)).1 == Ok {
        RollbackAppendsCopy(tables, id, number, faults);
      }
      if ReadConfig in faults {
        response := InternalError;
      } else if !Live(tables, id) {
        response := NotFound;
      } else if number <= 0 {
        response := BadRequest;
      } else if ReadVersion in faults {
        response := InternalError;
      } else if VersionKey(id, number) !in tables.versions {
        response := NotFound;
      } else {
        var cfg := tables.configs[id];
        var target := tables.versions[VersionKey(id, number)];
        var ok := StoreVersion(id, cfg.current + 1, target.content, faults);
        if ok {
          ok := UpdateRow(id, cfg.(current := cfg.current + 1), faults);
        }
        response := if ok then Ok else InternalError;
      }
      Record(Served(Rollback(id, number), faults));
    }

    method DeleteConfig(id: Id, faults: set<Call>) returns (response: Response)
      requires Valid()
      modifies this
      ensures Valid() && log == old(log) + [Served(Delete(id), faults)]
      ensures response == Serve(old(tables), Served(Delete(id), faults)).1
      ensures response == Ok ==>
                && id in old(tables).configs
                && tables == Tables(old(tables).configs[id := old(tables).configs[id].(deleted := true)],
                                    old(tables).versions)
      ensures response != Ok ==> tables == old(tables)
    {
      if WriteRow in faults {
        response := InternalError;
      } else if !Live(tables, id) {
        response := NotFound;
      } else {
        tables := tables.(configs := tables.configs[id := tables.configs[id].(deleted := true)]);
        response := Ok;
      }
      Record(Served(Delete(id), faults));
    }
  }
}
