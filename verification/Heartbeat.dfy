/** The heartbeat exchange that keeps an agent on the latest version of its configuration. */
module Heartbeat {
  import opened HubTypes
  import opened ConfigHistory
  import opened VersionText

  /** What the hub looks at: the version table and the configuration assigned to the instance. */
  datatype Hub = Hub(tables: Tables, configId: Option<Id>)

  /** The file the agent wrote, and the version and hash it claims to be on; no hash is the empty one. */
  datatype Copy = Copy(file: string, version: string, hash: Option<Digest>)

  datatype HeartbeatAnswer = HeartbeatAnswer(update: bool, latest: string)

  datatype Fetch = Fetch(version: string, hash: Digest, content: string)

  function Numbers(t: Tables, id: Id): set<nat> {
    set k | k in t.versions && k.config == id :: k.number
  }

  lemma {:induction false} Greatest(s: set<nat>) returns (m: nat)
    requires s != {}
    ensures m in s && forall n :: n in s ==> n <= m
  {
    var x :| x in s;
    var rest := s - {x};
    assert forall n :: n in s ==> n == x || n in rest;
    m := x;
    if rest != {} {
      var other := Greatest(rest);
      m := if x > other then x else other;
    }
  }

  lemma GreatestExists(s: set<nat>)
    requires s != {}
    ensures exists m :: m in s && forall n :: n in s ==> n <= m
  {
    var m := Greatest(s);
  }

  /** `GetLatestConfigVersion`: the row with the greatest number. */
  ghost function Latest(t: Tables, id: Id): (r: Option<nat>)
    ensures r.None? <==> forall v: nat :: VersionKey(id, v) !in t.versions
    ensures r.Some? ==> VersionKey(id, r.value) in t.versions
    ensures r.Some? ==> forall v: nat :: VersionKey(id, v) in t.versions ==> v <= r.value
  {
    var numbers := Numbers(t, id);
    assert forall v: nat :: VersionKey(id, v) in t.versions ==> v in numbers;
    if numbers == {} then None
    else
      GreatestExists(numbers);
      var m :| m in numbers && forall n :: n in numbers ==> n <= m;
      Some(m)
  }

  /** `FleetService.Heartbeat` for an accepted token. */
  ghost function Heartbeat(hub: Hub, version: string, hash: Option<Digest>): HeartbeatAnswer {
    if hub.configId.None? || Latest(hub.tables, hub.configId.value).None? then HeartbeatAnswer(false, "")
    else
      var number := Latest(hub.tables, hub.configId.value).value;
      var row := hub.tables.versions[VersionKey(hub.configId.value, number)];
      HeartbeatAnswer(version != Print(number) || hash != Some(row.hash), Print(number))
  }

  /** `FleetService.GetConfig` for a version given as text, and `None` when there is no such row. */
  ghost function GetConfig(hub: Hub, version: string): Option<Fetch> {
    if hub.configId.None? then None
    else
      var id := hub.configId.value;
      var number := if version != "" then Scan(version)
                    else if Latest(hub.tables, id).Some? then Latest(hub.tables, id).value else -1;
      if number >= 0 && VersionKey(id, number) in hub.tables.versions then
        var row := hub.tables.versions[VersionKey(id, number)];
        Some(Fetch(Print(number), row.hash, row.content))
      else None
  }

  /** The copy of an agent that has applied a version. */
  function At(t: Tables, id: Id, number: nat): Copy
    requires VersionKey(id, number) in t.versions
  {
    var row := t.versions[VersionKey(id, number)];
    Copy(row.content, Print(number), Some(row.hash))
  }

  /** Versions are only ever added. */
  ghost predicate Grows(before: Tables, after: Tables) {
    forall k :: k in before.versions ==> k in after.versions && after.versions[k] == before.versions[k]
  }

  /** The tables of a hub only grow, whatever requests it serves. */
  lemma HistoriesGrow(log: seq<Served>, n: nat)
    requires n <= |log|
    ensures Grows(After(log[..n]), After(log))
  {
    forall k | k in After(log[..n]).versions
      ensures k in After(log).versions && After(log).versions[k] == After(log[..n]).versions[k] {
      VersionsNeverChange(log, n, k);
    }
  }

  /** The version the hub announced can be fetched from it later, whatever was added since. */
  lemma AnnouncedCanBeFetched(asked: Hub, later: Hub, version: string, hash: Option<Digest>)
    requires asked.configId == later.configId && Grows(asked.tables, later.tables)
    requires asked.configId.Some? && Latest(asked.tables, asked.configId.value).Some?
    requires Latest(asked.tables, asked.configId.value).value <= MAX_INT
    ensures var id := asked.configId.value;
            var number := Latest(asked.tables, id).value;
            GetConfig(later, Heartbeat(asked, version, hash).latest) ==
            Some(Fetch(Print(number), asked.tables.versions[VersionKey(id, number)].hash,
                         asked.tables.versions[VersionKey(id, number)].content))
  {
    var number := Latest(asked.tables, asked.configId.value).value;
    ScanPrint(number);
    PrintedDigits(number);
  }

  /** `ORDER BY version DESC LIMIT 1`, as a scan over the rows in any order. */
  method LatestVersion(t: Tables, id: Id) returns (r: Option<nat>)
    ensures r == Latest(t, id)
  {
    r := None;
    var left := t.versions.Keys;
    while left != {}
      invariant left <= t.versions.Keys
      invariant r.Some? ==> VersionKey(id, r.value) in t.versions
      invariant forall v: nat :: VersionKey(id, v) in t.versions.Keys - left ==> r.Some? && v <= r.value
      decreases left
    {
      var k :| k in left;
      left := left - {k};
      if k.config == id && (r.None? || k.number > r.value) {
        r := Some(k.number);
      }
    }
  }

  /** `Heartbeat`: it announces something exactly if there is a version, what it announces can be fetched
      under that name, and it calls for an update exactly if fetching would change what the agent claims. */
  method ServeHeartbeat(hub: Hub, version: string, hash: Option<Digest>) returns (answer: HeartbeatAnswer)
    ensures answer == Heartbeat(hub, version, hash)
    ensures answer.latest != "" <==> hub.configId.Some? && Latest(hub.tables, hub.configId.value).Some?
    ensures answer.latest == "" ==> !answer.update
    ensures answer.latest != "" && Latest(hub.tables, hub.configId.value).value <= MAX_INT ==>
              var announced := GetConfig(hub, answer.latest);
              && announced.Some? && announced.value.version == answer.latest
              && (answer.update <==> (version, hash) != (announced.value.version, Some(announced.value.hash)))
  {
    answer := HeartbeatAnswer(false, "");
    if hub.configId.Some? {
      var latest := LatestVersion(hub.tables, hub.configId.value);
      if latest.Some? {
        var row := hub.tables.versions[VersionKey(hub.configId.value, latest.value)];
        answer := HeartbeatAnswer(version != Print(latest.value) || hash != Some(row.hash), Print(latest.value));
        PrintedDigits(latest.value);
        if latest.value <= MAX_INT {
          AnnouncedCanBeFetched(hub, hub, version, hash);
        }
      }
    }
  }

  /** `GetConfig`: asked for a number by its text, it answers with that version under that text, or not
      at all if there is none; asked for nothing, with the latest version. */
  method ServeGetConfig(hub: Hub, version: string) returns (r: Option<Fetch>)
    ensures r == GetConfig(hub, version)
    ensures forall n: nat :: n <= MAX_INT && version == Print(n) ==>
              r == (if hub.configId.Some? && VersionKey(hub.configId.value, n) in hub.tables.versions then
                      var row := hub.tables.versions[VersionKey(hub.configId.value, n)];
                      Some(Fetch(version, row.hash, row.content))
                    else None)
    ensures version == "" ==>
              r == (if hub.configId.Some? && Latest(hub.tables, hub.configId.value).Some? then
                      var latest := Latest(hub.tables, hub.configId.value).value;
                      var row := hub.tables.versions[VersionKey(hub.configId.value, latest)];
                      Some(Fetch(Print(latest), row.hash, row.content))
                    else None)
  {
    forall n: nat | n <= MAX_INT && version == Print(n) ensures Scan(version) == n && version != "" {
      ScanPrint(n);
      PrintedDigits(n);
    }
    if hub.configId.None? {
      return None;
    }
    var id, number := hub.configId.value, Scan(version);
    if version == "" {
      var latest := LatestVersion(hub.tables, id);
      number := if latest.Some? then latest.value else -1;
    }
    if number >= 0 && VersionKey(id, number) in hub.tables.versions {
      var row := hub.tables.versions[VersionKey(id, number)];
      return Some(Fetch(Print(number), row.hash, row.content));
    }
    r := None;
  }

  /** Whether a fetch and the write that follows it succeed. */
  datatype Luck = Luck(fetch: bool, write: bool)

  /** One fetch of the version told, and its application. */
  ghost function Applied(copy: Copy, hub: Hub, told: string, luck: Luck): Copy {
    var fetched := GetConfig(hub, told);
    if luck == Luck(true, true) && fetched.Some?
    then Copy(fetched.value.content, fetched.value.version, Some(fetched.value.hash)) else copy
  }

  /** One heartbeat round: when an update is announced, its action and then the round itself fetch
      and apply the announced version. The hub may have moved on at each of the two fetches. */
  ghost function Round(copy: Copy, asked: Hub, first: Hub, second: Hub, luck: (Luck, Luck)): Copy {
    var answer := Heartbeat(asked, copy.version, copy.hash);
    if answer.update then Applied(Applied(copy, first, answer.latest, luck.0), second, answer.latest, luck.1) else copy
  }

  /** When an update is announced and either application goes through, the agent has the version
      that was the latest when it asked, whatever was added meanwhile; otherwise nothing changes. */
  lemma RoundConverges(copy: Copy, asked: Hub, first: Hub, second: Hub, luck: (Luck, Luck))
    requires Heartbeat(asked, copy.version, copy.hash).update
    requires first.configId == asked.configId && second.configId == asked.configId
    requires Grows(asked.tables, first.tables) && Grows(asked.tables, second.tables)
    requires Latest(asked.tables, asked.configId.value).value <= MAX_INT
    ensures var id := asked.configId.value;
            Round(copy, asked, first, second, luck) ==
            if Luck(true, true) == luck.0 || Luck(true, true) == luck.1
            then At(asked.tables, id, Latest(asked.tables, id).value) else copy
  {
    AnnouncedCanBeFetched(asked, first, copy.version, copy.hash);
    AnnouncedCanBeFetched(asked, second, copy.version, copy.hash);
  }

  /** An agent that has applied a version is told of no update exactly while that version is still
      the latest of its configuration. */
  lemma QuietIffLatest(hub: Hub, later: Hub, number: nat)
    requires hub.configId.Some? && later.configId == hub.configId && Grows(hub.tables, later.tables)
    requires VersionKey(hub.configId.value, number) in hub.tables.versions
    ensures var copy := At(hub.tables, hub.configId.value, number);
            !Heartbeat(later, copy.version, copy.hash).update <==>
            Latest(later.tables, hub.configId.value) == Some(number)
  {
    var id := hub.configId.value;
    assert VersionKey(id, number) in later.tables.versions;
    var latest := Latest(later.tables, id).value;
    if Print(latest) == Print(number) {
      PrintInjective(latest, number);
    }
  }

  /** A round that goes through is followed by one that announces nothing, unless a version was added. */
  lemma NextRoundIsQuietIff(copy: Copy, asked: Hub, first: Hub, second: Hub, luck: (Luck, Luck), later: Hub)
    requires Heartbeat(asked, copy.version, copy.hash).update && Luck(true, true) in {luck.0, luck.1}
    requires first.configId == second.configId == later.configId == asked.configId
    requires Grows(asked.tables, first.tables) && Grows(asked.tables, second.tables) && Grows(asked.tables, later.tables)
    requires Latest(asked.tables, asked.configId.value).value <= MAX_INT
    ensures var after := Round(copy, asked, first, second, luck);
            !Heartbeat(later, after.version, after.hash).update <==>
            Latest(later.tables, asked.configId.value) == Latest(asked.tables, asked.configId.value)
  {
    RoundConverges(copy, asked, first, second, luck);
    QuietIffLatest(asked, later, Latest(asked.tables, asked.configId.value).value);
  }

  /** An agent put back on an earlier version by a rollback is put forward again by its next round. */
  lemma RollbackIsUndone(hub: Hub, number: nat)
    requires hub.configId.Some? && VersionKey(hub.configId.value, number) in hub.tables.versions
    requires number < Latest(hub.tables, hub.configId.value).value <= MAX_INT
    ensures var id := hub.configId.value;
            var lucky := (Luck(true, true), Luck(true, true));
            Round(At(hub.tables, id, number), hub, hub, hub, lucky) == At(hub.tables, id, Latest(hub.tables, id).value)
  {
    QuietIffLatest(hub, hub, number);
    RoundConverges(At(hub.tables, hub.configId.value, number), hub, hub, hub, (Luck(true, true), Luck(true, true)));
  }

  /** `Client.Register` takes over the hub's version and hash, and leaves the file alone. */
  ghost function Registered(copy: Copy, hub: Hub): Copy {
    if hub.configId.None? || Latest(hub.tables, hub.configId.value).None? then copy
    else
      var number := Latest(hub.tables, hub.configId.value).value;
      Copy(copy.file, Print(number), Some(hub.tables.versions[VersionKey(hub.configId.value, number)].hash))
  }

  /** After registering, an agent is told of no update while no version is added, so that its file is
      the latest version exactly if it was before. */
  lemma RegistrationMasksStaleFile(copy: Copy, hub: Hub, later: Hub)
    requires hub.configId.Some? && Latest(hub.tables, hub.configId.value).Some?
    requires later.configId == hub.configId && Grows(hub.tables, later.tables)
    requires Latest(later.tables, hub.configId.value) == Latest(hub.tables, hub.configId.value)
    ensures var id := hub.configId.value;
            var number := Latest(hub.tables, id).value;
            var after := Registered(copy, hub);
            && !Heartbeat(later, after.version, after.hash).update
            && (after == At(hub.tables, id, number) <==> copy.file == hub.tables.versions[VersionKey(id, number)].content)
  {
    QuietIffLatest(hub, later, Latest(hub.tables, hub.configId.value).value);
  }

  class Agent {
    var file: string
    var version: string
    var hash: Option<Digest>

    ghost function Shown(): Copy
      reads this
    {
      Copy(file, version, hash)
    }

    constructor (copy: Copy)
      ensures Shown() == copy
    {
      file, version, hash := copy.file, copy.version, copy.hash;
    }

    /** `OnConfigUpdate`: the file first, then what the client claims. */
    method OnConfigUpdate(newVersion: string, newHash: Digest, content: string, written: bool) returns (ok: bool)
      modifies this
      ensures ok == written
      ensures Shown() == if ok then Copy(content, newVersion, Some(newHash)) else old(Shown())
    {
      ok := written;
      if ok {
        file := content;
        version, hash := newVersion, Some(newHash);
      }
    }

    method FetchAndApply(hub: Hub, told: string, luck: Luck)
      modifies this
      ensures Shown() == Applied(old(Shown()), hub, told, luck)
    {
      var fetched := ServeGetConfig(hub, told);
      if luck.fetch && fetched.Some? {
        var ok := OnConfigUpdate(fetched.value.version, fetched.value.hash, fetched.value.content, luck.write);
      }
    }

    /** `sendHeartbeat`: every announced action, and then the announced version once more. */
    method SendHeartbeat(asked: Hub, first: Hub, second: Hub, luck: (Luck, Luck))
      modifies this
      ensures Shown() == Round(old(Shown()), asked, first, second, luck)
    {
      var answer := ServeHeartbeat(asked, version, hash);
      if answer.update {
        FetchAndApply(first, answer.latest, luck.0);
        FetchAndApply(second, answer.latest, luck.1);
      }
    }

    /** `Client.Register`. */
    method Register(hub: Hub)
      modifies this
      ensures Shown() == Registered(old(Shown()), hub)
      ensures file == old(file)
      ensures if hub.configId.Some? && Latest(hub.tables, hub.configId.value).Some? then
                var latest := Latest(hub.tables, hub.configId.value).value;
                version == Print(latest) && hash == Some(hub.tables.versions[VersionKey(hub.configId.value, latest)].hash)
              else version == old(version) && hash == old(hash)
    {
      var latest := None;
      if hub.configId.Some? {
        latest := LatestVersion(hub.tables, hub.configId.value);
      }
      if latest.Some? {
        var row := hub.tables.versions[VersionKey(hub.configId.value, latest.value)];
        version, hash := Print(latest.value), Some(row.hash);
      }
    }
  }
}
