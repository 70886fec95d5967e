/** The hub's gRPC service: session tokens, subscriber channels and the report path. Each critical
    section of the two mutexes is one step, and `log` records them in the order they happened. */
module FleetService {
  import opened HubTypes
  import opened Orchestration
  import RunnerModel

  type Token = string

  datatype Event = DeploymentEvent(deployment: Id, isRollback: bool) | ConfigUpdateEvent(version: nat)

  /** Capacity of an event channel. */
  const CAPACITY: nat := 100

  /** One critical section. A channel is named by the position of the `Subscribed` that made it. */
  datatype Entry =
    | Registered(token: Token, instance: Id)
    | Dropped(token: Token)
    | Subscribed(instance: Id)
    | Exited(instance: Id, channel: nat)
    | Deregistered(instance: Id)

  /** Effect of one step on the session map. */
  function NextSessions(sessions: map<Digest, Id>, e: Entry): map<Digest, Id> {
    match e
    case Registered(token, instance) => sessions[Digest(token) := instance]
    case Dropped(token) => sessions - {Digest(token)}
    case _ => sessions
  }

  /** Sessions after a log. */
  function Sessions(log: seq<Entry>): map<Digest, Id> {
    if log == [] then map[] else NextSessions(Sessions(log[..|log| - 1]), log[|log| - 1])
  }

  /** The channel each subscribed instance is served by, and the channels closed, in order. */
  datatype Subscriptions = Subscriptions(mapped: map<Id, nat>, closed: seq<nat>)

  /** Closes and forgets the channel of an instance, if it has one. */
  function CloseMapped(s: Subscriptions, i: Id): Subscriptions {
    if i in s.mapped then Subscriptions(s.mapped - {i}, s.closed + [s.mapped[i]]) else s
  }

  /** Effect of the step at position `at` on the subscriptions. */
  function NextSubscriptions(s: Subscriptions, at: nat, e: Entry): Subscriptions {
    match e
    case Subscribed(i) => CloseMapped(s, i).(mapped := CloseMapped(s, i).mapped[i := at])
    case Exited(i, c) => if i in s.mapped && s.mapped[i] == c then s.(mapped := s.mapped - {i}) else s
    case Deregistered(i) => CloseMapped(s, i)
    case _ => s
  }

  function SubscriptionsOf(log: seq<Entry>): Subscriptions {
    if log == [] then Subscriptions(map[], [])
    else NextSubscriptions(SubscriptionsOf(log[..|log| - 1]), |log| - 1, log[|log| - 1])
  }

  lemma Appended(log: seq<Entry>, e: Entry)
    ensures Sessions(log + [e]) == NextSessions(Sessions(log), e)
    ensures SubscriptionsOf(log + [e]) == NextSubscriptions(SubscriptionsOf(log), |log|, e)
  {
    assert (log + [e])[..|log|] == log;
  }

  /** A subscription closes the channel it replaces, and no other. */
  lemma AppendedSubscription(log: seq<Entry>, i: Id)
    ensures Sessions(log + [Subscribed(i)]) == Sessions(log)
    ensures var was, now := SubscriptionsOf(log), SubscriptionsOf(log + [Subscribed(i)]);
            now.mapped == was.mapped[i := |log|] && now.closed == CloseMapped(was, i).closed
  {
    hide SubscriptionsOf, Sessions;
    Appended(log, Subscribed(i));
  }

  /** Channels in the tables were made by earlier steps. */
  lemma {:induction false} MadeBefore(log: seq<Entry>)
    ensures forall i :: i in SubscriptionsOf(log).mapped ==> SubscriptionsOf(log).mapped[i] < |log|
    ensures forall c :: c in SubscriptionsOf(log).closed ==> c < |log|
  {
    if log != [] {
      MadeBefore(log[..|log| - 1]);
    }
  }

  /** A new name has not been closed before. */
  lemma NewNameOpen(log: seq<Entry>, i: Id)
    ensures |log| !in CloseMapped(SubscriptionsOf(log), i).closed
  {
    hide SubscriptionsOf;
    MadeBefore(log);
  }

  /** Entries that concern one token. */
  predicate Concerns(e: Entry, t: Token) {
    (e.Registered? || e.Dropped?) && e.token == t
  }

  /** The last word on `t` was to issue it to `i`. */
  ghost predicate IssuedAt(log: seq<Entry>, t: Token, i: Id, k: nat) {
    k < |log| && log[k] == Registered(t, i) && forall j :: k < j < |log| ==> !Concerns(log[j], t)
  }

  /** A token is accepted for an instance exactly when it was issued to that instance and neither
      dropped nor issued again since. */
  lemma {:induction false} SessionIffIssued(log: seq<Entry>, t: Token, i: Id)
    ensures (Digest(t) in Sessions(log) && Sessions(log)[Digest(t)] == i) <==> exists k :: IssuedAt(log, t, i, k)
  {
    if log != [] {
      var last := |log| - 1;
      var before := log[..last];
      SessionIffIssued(before, t, i);
      if Concerns(log[last], t) {
        assert log[last] == Registered(t, i) ==> IssuedAt(log, t, i, last);
      } else {
        assert forall k :: IssuedAt(before, t, i, k) ==> IssuedAt(log, t, i, k);
        assert forall k :: IssuedAt(log, t, i, k) ==> k != last && IssuedAt(before, t, i, k);
      }
    }
  }

  /** Steps that close the channel of instance `i`. */
  predicate TakesFrom(e: Entry, i: Id) {
    e == Subscribed(i) || e == Deregistered(i)
  }

  /** Entries that end the service of instance `i` by channel `c`. */
  predicate Ends(e: Entry, i: Id, c: nat) {
    TakesFrom(e, i) || e == Exited(i, c)
  }

  ghost predicate Serving(log: seq<Entry>, i: Id, c: nat) {
    c < |log| && log[c] == Subscribed(i) && forall j :: c < j < |log| ==> !Ends(log[j], i, c)
  }

  /** An instance is served by the channel of its last subscription until that stream exits or the
      instance deregisters. The exit of an older stream does not matter. */
  lemma {:induction false} MappedIffServing(log: seq<Entry>, i: Id, c: nat)
    ensures (i in SubscriptionsOf(log).mapped && SubscriptionsOf(log).mapped[i] == c) <==> Serving(log, i, c)
  {
    if log != [] {
      var last := |log| - 1;
      var before := log[..last];
      MappedIffServing(before, i, c);
      if c < last {
        assert Serving(log, i, c) <==> Serving(before, i, c) && !Ends(log[last], i, c);
      }
    }
  }

  /** No two instances share a channel. */
  lemma ChannelsNotShared(log: seq<Entry>, i: Id, j: Id)
    requires i in SubscriptionsOf(log).mapped && j in SubscriptionsOf(log).mapped
    requires SubscriptionsOf(log).mapped[i] == SubscriptionsOf(log).mapped[j]
    ensures i == j
  {
    MappedIffServing(log, i, SubscriptionsOf(log).mapped[i]);
    MappedIffServing(log, j, SubscriptionsOf(log).mapped[j]);
  }

  /** Step `k` closes channel `c`: it ends the service of the instance that `c` serves, and is not
      the exit of the stream itself. */
  ghost predicate ClosesAt(log: seq<Entry>, c: nat, k: nat) {
    k < |log| && (log[k].Subscribed? || log[k].Deregistered?) && Serving(log[..k], log[k].instance, c)
  }

  /** A channel is closed exactly when some step took it from an instance it was serving. */
  lemma {:induction false} ClosedIffTaken(log: seq<Entry>, c: nat)
    ensures c in SubscriptionsOf(log).closed <==> exists k :: ClosesAt(log, c, k)
  {
    if log != [] {
      var last := |log| - 1;
      var before := log[..last];
      ClosedIffTaken(before, c);
      assert forall k :: 0 <= k < last ==> before[..k] == log[..k];
      assert forall k :: 0 <= k < last ==> ClosesAt(before, c, k) == ClosesAt(log, c, k);
      if log[last].Subscribed? || log[last].Deregistered? {
        MappedIffServing(before, log[last].instance, c);
        assert ClosesAt(log, c, last) <==> Serving(before, log[last].instance, c);
      }
    }
  }

  /** Every mapped channel is open. */
  lemma MappedChannelsAreOpen(log: seq<Entry>, i: Id)
    requires i in SubscriptionsOf(log).mapped
    ensures SubscriptionsOf(log).mapped[i] !in SubscriptionsOf(log).closed
  {
    var c := SubscriptionsOf(log).mapped[i];
    MappedIffServing(log, i, c);
    ClosedIffTaken(log, c);
    forall k: nat | c < k < |log| ensures !ClosesAt(log, c, k) {
      assert log[..k][c] == log[c];
      assert !Ends(log[k], i, c);
    }
  }

  /** No channel is closed twice. */
  lemma {:induction false} NoDoubleClose(log: seq<Entry>, a: nat, b: nat)
    requires a < b < |SubscriptionsOf(log).closed|
    ensures SubscriptionsOf(log).closed[a] != SubscriptionsOf(log).closed[b]
  {
    var last := |log| - 1;
    var before := log[..last];
    var was := SubscriptionsOf(before);
    if b < |was.closed| {
      NoDoubleClose(before, a, b);
    } else {
      MappedChannelsAreOpen(before, log[last].instance);
      assert SubscriptionsOf(log).closed == was.closed + [was.mapped[log[last].instance]];
      assert was.closed[a] in was.closed;
    }
  }

  /** A channel looked up after `n` steps is closed `m - n` steps later, so that sending on it
      panics, exactly when a subscription or deregistration of its instance came in between and the
      stream had not left before. */
  lemma SendPanicsIff(log: seq<Entry>, n: nat, i: Id)
    requires n <= |log| && i in SubscriptionsOf(log[..n]).mapped
    ensures var c := SubscriptionsOf(log[..n]).mapped[i];
            c in SubscriptionsOf(log).closed <==>
            exists k {:trigger log[k]} :: n <= k < |log| && TakesFrom(log[k], i) &&
                                          Exited(i, c) !in log[n..k]
  {
    var c := SubscriptionsOf(log[..n]).mapped[i];
    MappedIffServing(log[..n], i, c);
    ClosedIffTaken(log, c);
    if c in SubscriptionsOf(log).closed {
      var k :| ClosesAt(log, c, k);
      TakenAfterLookup(log, n, i, c, k);
    }
    if k: nat {:trigger log[k]} :| n <= k < |log| && TakesFrom(log[k], i) &&
                                   Exited(i, c) !in log[n..k] {
      FirstTaking(log, n, i, c, k);
    }
  }

  /** Whatever closes a channel that was serving at step `n` comes later. */
  lemma TakenAfterLookup(log: seq<Entry>, n: nat, i: Id, c: nat, k: nat)
    requires n <= |log| && Serving(log[..n], i, c) && ClosesAt(log, c, k)
    ensures n <= k && log[k].instance == i && Exited(i, c) !in log[n..k]
  {
    assert log[..k][c] == log[c] && log[..n][c] == log[c];
    assert c < k < n ==> !Ends(log[..n][k], i, c);
    forall j | n <= j < k ensures log[j] != Exited(i, c) {
      assert !Ends(log[..k][j], i, c);
    }
  }

  /** The first taking at or before `k` closes the channel. */
  lemma {:induction false} FirstTaking(log: seq<Entry>, n: nat, i: Id, c: nat, k: nat)
    requires n <= k < |log| && Serving(log[..n], i, c)
    requires TakesFrom(log[k], i)
    requires Exited(i, c) !in log[n..k]
    ensures exists j :: ClosesAt(log, c, j)
    decreases k
  {
    if j :| n <= j < k && TakesFrom(log[j], i) {
      FirstTaking(log, n, i, c, j);
    } else {
      forall j | c < j < k ensures !Ends(log[..k][j], i, c) {
        if j < n {
          assert log[..n][j] == log[j];
        } else {
          assert log[n..k][j - n] == log[j];
        }
      }
      assert log[..n][c] == log[..k][c];
      assert ClosesAt(log, c, k);
    }
  }

  class Channel {
    /** Position of the subscription that made this channel. */
    ghost const name: nat
    var open: bool
    var queue: seq<Event>

    constructor (ghost name: nat)
      ensures this.name == name && open && queue == []
    {
      this.name, open, queue := name, true, [];
    }

    /** `close`, which panics on a closed channel. */
    method Close()
      requires open
      modifies this
      ensures !open && queue == old(queue)
    {
      open := false;
    }

    /** `select` with a send and a default, which panics on a closed channel. */
    method TrySend(e: Event) returns (sent: bool)
      requires open
      modifies this`queue
      ensures sent <==> |old(queue)| < 100
      ensures queue == if sent then old(queue) + [e] else old(queue)
    {
      sent := |queue| < CAPACITY;
      if sent {
        queue := queue + [e];
      }
    }
  }

  datatype Delivery = Sent | Full | Panicked

  /** The subscriber map holds the channels that the log says are mapped. */
  ghost predicate Agree(log: seq<Entry>, subscribers: map<Id, Channel>, channels: map<nat, Channel>) {
    && subscribers.Keys == SubscriptionsOf(log).mapped.Keys
    && (forall i :: i in subscribers ==> SubscriptionsOf(log).mapped[i] in channels &&
                                         subscribers[i] == channels[SubscriptionsOf(log).mapped[i]])
    && (forall c :: c in channels ==> c < |log| && channels[c].name == c)
  }

  lemma AgreeAfterSubscribed(log: seq<Entry>, subscribers: map<Id, Channel>, channels: map<nat, Channel>, i: Id, ch: Channel)
    requires Agree(log, subscribers, channels) && ch.name == |log|
    ensures |log| !in channels && (i in subscribers ==> subscribers[i] in channels.Values)
    ensures Agree(log + [Subscribed(i)], subscribers[i := ch], channels[|log| := ch])
  {
    hide SubscriptionsOf;
    AppendedSubscription(log, i);
  }

  class FleetService {
    var sessions: map<Digest, Id>
    var subscribers: map<Id, Channel>
    /** Every critical section so far, and every channel made, by name. */
    ghost var log: seq<Entry>
    ghost var channels: map<nat, Channel>

    /** The two maps are what the log says, and a channel is open unless the log says it was closed. */
    ghost predicate Valid()
      reads this, channels.Values
    {
      && sessions == Sessions(log)
      && Agree(log, subscribers, channels)
      && forall c :: c in channels ==> (channels[c].open <==> c !in SubscriptionsOf(log).closed)
    }

    /** A channel this service made. */
    ghost predicate Made(ch: Channel)
      reads this
    {
      ch.name in channels && channels[ch.name] == ch
    }

    constructor ()
      ensures Valid() && log == [] && channels == map[]
    {
      sessions, subscribers, log, channels := map[], map[], [], map[];
    }

    /** `validateToken` and the comparison with the instance named in the request. */
    method Accepts(token: Token, instance: Id) returns (ok: bool)
      requires Valid()
      ensures ok <==> exists k :: IssuedAt(log, token, instance, k)
    {
      SessionIffIssued(log, token, instance);
      ok := Digest(token) in sessions && sessions[Digest(token)] == instance;
    }

    /** `Register`: a new session for a named instance whose row could be stored. The token is
        fresh, and is never taken back from an earlier session. */
    method Register(token: Token, instance: Id, name: string, stored: bool) returns (ok: bool)
      requires Valid()
      modifies this`sessions, this`log
      ensures Valid()
      ensures ok <==> instance != "" && name != "" && stored
      ensures log == if ok then old(log) + [Registered(token, instance)] else old(log)
      ensures sessions == if ok then old(sessions)[Digest(token) := instance] else old(sessions)
    {
      ok := instance != "" && name != "" && stored;
      if ok {
        sessions := sessions[Digest(token) := instance];
        Appended(log, Registered(token, instance));
        log := log + [Registered(token, instance)];
      }
    }

    /** `Deregister`: drops the session, then closes and forgets the channel. Both are separate
        steps; a refused request takes none. */
    method Deregister(token: Token, instance: Id) returns (ok: bool)
      requires Valid()
      modifies this, channels.Values
      ensures Valid() && channels == old(channels)
      ensures ok <==> exists k :: IssuedAt(old(log), token, instance, k)
      ensures log == if ok then old(log) + [Dropped(token), Deregistered(instance)] else old(log)
      ensures sessions == if ok then old(sessions) - {Digest(token)} else old(sessions)
      ensures subscribers == if ok then old(subscribers) - {instance} else old(subscribers)
      ensures ok && instance in old(subscribers) ==> !old(subscribers)[instance].open
      ensures forall c :: c in channels ==> channels[c].queue == old(channels[c].queue)
    {
      ok := Accepts(token, instance);
      if ok {
        DropSession(token);
        CloseSubscriber(instance);
      }
    }

    method DropSession(token: Token)
      requires Valid()
      modifies this`sessions, this`log
      ensures Valid() && log == old(log) + [Dropped(token)] && sessions == old(sessions) - {Digest(token)}
    {
      sessions := sessions - {Digest(token)};
      Appended(log, Dropped(token));
      log := log + [Dropped(token)];
    }

    method CloseSubscriber(instance: Id)
      requires Valid()
      modifies this`subscribers, this`log, channels.Values
      ensures Valid() && log == old(log) + [Deregistered(instance)] && subscribers == old(subscribers) - {instance}
      ensures instance in old(subscribers) ==> !old(subscribers)[instance].open
      ensures forall c :: c in channels ==> channels[c].queue == old(channels[c].queue)
    {
      hide SubscriptionsOf, Sessions;
      Appended(log, Deregistered(instance));
      CloseMappedChannel(instance);
      subscribers := subscribers - {instance};
      log := log + [Deregistered(instance)];
    }

    /** Closes the channel of an instance, if it has one. */
    method CloseMappedChannel(instance: Id)
      requires Valid()
      modifies if instance in subscribers then {subscribers[instance]} else {}
      ensures forall c :: c in channels ==> channels[c].queue == old(channels[c].queue)
      ensures forall c :: c in channels ==>
                (channels[c].open <==> c !in CloseMapped(SubscriptionsOf(log), instance).closed)
      ensures instance in subscribers ==> !subscribers[instance].open
    {
      if instance in subscribers {
        Open(instance);
        subscribers[instance].Close();
      }
    }

    /** A mapped channel may be closed or sent to without a panic, and no other instance has it. */
    lemma Open(i: Id)
      requires Valid() && i in subscribers
      ensures subscribers[i].open
      ensures forall j :: j in subscribers && subscribers[j] == subscribers[i] ==> j == i
    {
      MappedChannelsAreOpen(log, i);
      forall j | j in subscribers && subscribers[j] == subscribers[i] ensures j == i {
        ChannelsNotShared(log, i, j);
      }
    }

    lemma AllOpen()
      requires Valid()
      ensures forall i :: i in subscribers ==> subscribers[i].open && subscribers[i] in channels.Values
      ensures forall i, j :: i in subscribers && j in subscribers && subscribers[i] == subscribers[j] ==> i == j
    {
      forall i | i in subscribers
        ensures subscribers[i].open && forall j :: j in subscribers && subscribers[i] == subscribers[j] ==> i == j {
        Open(i);
      }
    }

    /** `Subscribe`, up to its event loop: closes the channel of the previous stream and maps a new one. */
    method Subscribe(token: Token, instance: Id) returns (stream: Option<Channel>)
      requires Valid()
      modifies this`subscribers, this`log, this`channels, channels.Values
      ensures Valid()
      ensures stream.Some? <==> exists k :: IssuedAt(old(log), token, instance, k)
      ensures log == if stream.Some? then old(log) + [Subscribed(instance)] else old(log)
      ensures stream.Some? ==> fresh(stream.value) && stream.value.queue == [] && stream.value.open
      ensures stream.Some? && instance in old(subscribers) ==> !old(subscribers)[instance].open
      ensures stream.Some? ==> channels == old(channels)[|old(log)| := stream.value]
      ensures stream.Some? ==> subscribers == old(subscribers)[instance := stream.value]
      ensures stream.None? ==> channels == old(channels) && subscribers == old(subscribers)
      ensures forall c :: c in old(channels) ==> channels[c].queue == old(channels[c].queue)
    {
      var ok := Accepts(token, instance);
      if ok {
        var ch := MapChannel(instance);
        stream := Some(ch);
      } else {
        stream := None;
      }
    }

    /** The critical section of `Subscribe`. */
    method MapChannel(instance: Id) returns (ch: Channel)
      requires Valid()
      modifies this`subscribers, this`log, this`channels, channels.Values
      ensures Valid() && log == old(log) + [Subscribed(instance)]
      ensures fresh(ch) && ch.queue == [] && ch.open && channels == old(channels)[|old(log)| := ch]
      ensures instance in old(subscribers) ==> !old(subscribers)[instance].open
      ensures subscribers == old(subscribers)[instance := ch]
      ensures forall c :: c in old(channels) ==> channels[c].queue == old(channels[c].queue)
    {
      hide SubscriptionsOf, Sessions, CloseMapped, Agree;
      ch := new Channel(|log|);
      AgreeAfterSubscribed(log, subscribers, channels, instance, ch);
      CloseMappedChannel(instance);
      subscribers := subscribers[instance := ch];
      AppendedSubscription(log, instance);
      NewNameOpen(log, instance);
      log, channels := log + [Subscribed(instance)], channels[|log| := ch];
    }

    /** The deferred cleanup of a stream: it removes its own channel and never a newer one. */
    method StreamExit(instance: Id, ch: Channel)
      requires Valid() && Made(ch)
      modifies this`subscribers, this`log
      ensures Valid() && log == old(log) + [Exited(instance, ch.name)]
      ensures subscribers == if instance in old(subscribers) && old(subscribers)[instance] == ch
                             then old(subscribers) - {instance} else old(subscribers)
    {
      Appended(log, Exited(instance, ch.name));
      if instance in subscribers && subscribers[instance] == ch {
        subscribers := subscribers - {instance};
      }
      log := log + [Exited(instance, ch.name)];
    }

    /** `BroadcastEvent`, under the read lock and in any order: every subscriber with room gets the
        event once, and no send hits a closed channel. */
    method BroadcastEvent(e: Event)
      requires Valid()
      modifies channels.Values
      ensures Valid()
      ensures forall c :: c in channels ==>
                channels[c].queue == if channels[c] in subscribers.Values && |old(channels[c].queue)| < 100
                                     then old(channels[c].queue) + [e] else old(channels[c].queue)
    {
      AllOpen();
      SendToAll(e);
    }

    /** The loop of sends. */
    method SendToAll(e: Event)
      requires forall i :: i in subscribers ==> subscribers[i].open && subscribers[i] in channels.Values
      requires forall i, j :: i in subscribers && j in subscribers && subscribers[i] == subscribers[j] ==> i == j
      modifies channels.Values
      ensures forall c :: c in channels ==> channels[c].open == old(channels[c].open)
      ensures forall i :: i in subscribers ==> var c := subscribers[i];
                c.queue == if |old(c.queue)| < CAPACITY then old(c.queue) + [e] else old(c.queue)
      ensures forall c :: c in channels && channels[c] !in subscribers.Values ==> channels[c].queue == old(channels[c].queue)
    {
      var left := subscribers.Keys;
      while left != {}
        invariant left <= subscribers.Keys
        invariant forall c :: c in channels ==> channels[c].open == old(channels[c].open)
        invariant forall i :: i in subscribers ==> var c := subscribers[i];
                    c.queue == if i !in left && |old(c.queue)| < CAPACITY then old(c.queue) + [e] else old(c.queue)
        invariant forall i :: i in subscribers ==> subscribers[i].open
        invariant forall c :: c in channels && channels[c] !in subscribers.Values ==>
                    channels[c].queue == old(channels[c].queue)
        decreases left
      {
        var i :| i in left;
        left := left - {i};
        var sent := subscribers[i].TrySend(e);
      }
    }

    /** First half of `SendEventToInstance`, under the read lock. */
    method Lookup(instance: Id) returns (found: Option<Channel>)
      requires Valid()
      ensures found.Some? <==> exists c :: Serving(log, instance, c)
      ensures found.Some? ==> Made(found.value) && Serving(log, instance, found.value.name) && found.value.open
    {
      if instance in subscribers {
        Open(instance);
        MappedIffServing(log, instance, subscribers[instance].name);
        return Some(subscribers[instance]);
      }
      forall c: nat ensures !Serving(log, instance, c) {
        MappedIffServing(log, instance, c);
      }
      found := None;
    }

    /** Second half, without the lock, when other steps may have come in between since the lookup at
        `n`: it panics exactly when one of them closed the channel. */
    method Deliver(ghost n: nat, instance: Id, ch: Channel, e: Event) returns (outcome: Delivery)
      requires Valid() && Made(ch) && n <= |log| && Serving(log[..n], instance, ch.name)
      modifies ch
      ensures Valid()
      ensures outcome.Panicked? <==>
              exists k {:trigger log[k]} :: n <= k < |log| && TakesFrom(log[k], instance) &&
                                            Exited(instance, ch.name) !in log[n..k]
      ensures outcome.Full? <==> !outcome.Panicked? && |old(ch.queue)| >= 100
      ensures ch.queue == if outcome.Sent? then old(ch.queue) + [e] else old(ch.queue)
    {
      MappedIffServing(log[..n], instance, ch.name);
      SendPanicsIff(log, n, instance);
      if !ch.open {
        return Panicked;
      }
      var sent := ch.TrySend(e);
      outcome := if sent then Sent else Full;
    }

    /** `ReportDeploymentStatus`: an accepted report reaches the record of the reported deployment
        and of the instance the token was issued to, and no other. */
    method ReportDeploymentStatus(token: Token, instance: Id, deployment: Id, state: DeploymentState, details: string,
                                  now: nat, handler: Orchestrator?) returns (ok: bool)
      requires Valid() && (handler != null ==> handler.Valid())
      modifies if handler != null then {handler} else {}
      ensures ok <==> exists k :: IssuedAt(log, token, instance, k)
      ensures handler != null ==> handler.Valid() && handler.tables == old(handler.tables)
      ensures handler != null && !ok ==> handler.runners == old(handler.runners)
      ensures handler != null ==> forall d, i ::
                d in handler.runners && i in handler.runners[d] &&
                (d !in old(handler.runners) || i !in old(handler.runners)[d] ||
                 handler.runners[d][i] != old(handler.runners)[d][i]) ==>
                  ok && d == deployment && i == instance && d in old(handler.runners) && i in old(handler.runners)[d] &&
                  handler.runners[d][i] == RunnerModel.ApplyReport(old(handler.runners)[d][i], now, state, details) &&
                  handler.runners[d][i].status == state && handler.runners[d][i].lastStatusAt == Some(now)
    {
      ok := Accepts(token, instance);
      if ok && handler != null {
        handler.ReportInstanceStatus(instance, deployment, state, details, now);
      }
    }
  }
}
