/**
 Which entries a dispatch pass sends, buries and leaves, and what goes over the wire
 (`dispatchQueued` in src/do/host-hub.ts): the answers of the daemon's socket and of D1,
 put together with what is stored.
 */
module HubSends {
  import opened Common
  import opened HubModel
  import HubDispatch
  import HubInvariant
  import HubRoster

  /** Answers from outside the hub's storage while a pass runs. */
  datatype Surroundings = Surroundings(
    daemonConnected: bool,
    connectionActive: string -> bool,
    sendError: QueueKey -> Option<string>)

  /** What one pass learns about one entry; a daemon takes deliveries for the agents it published. */
  function EnvOf(r: HubRoster.Roster, around: Surroundings, now: int, key: QueueKey, item: Item): DispatchEnv {
    DispatchEnv(now,
                item.connectionId.Some? && around.connectionActive(item.connectionId.value),
                around.daemonConnected && item.agent in r.listed,
                around.sendError(key))
  }

  function EnvsOf(s: HubState, r: HubRoster.Roster, around: Surroundings, now: int, listing: seq<QueueKey>): (envs: seq<DispatchEnv>)
    requires forall k :: k in listing ==> k in s.queue
    ensures |envs| == |listing|
  {
    seq(|listing|, i requires 0 <= i < |listing| => EnvOf(r, around, now, listing[i], s.queue[listing[i]]))
  }

  // ---------------------------------------------------------------- one visit

  /** The visited copy is spent: forty sends, a day in the queue, or a connection that is no more. */
  predicate Spent(item: Item, around: Surroundings, now: int) {
    || item.attempts >= 40
    || now - item.enqueuedAt >= 86_400_000
    || (item.connectionId.Some? && !around.connectionActive(item.connectionId.value))
  }

  /** It goes out: not spent, the daemon is connected and has published its agent, and its retry is due. */
  predicate GoesOut(item: Item, listed: map<string, string>, around: Surroundings, now: int) {
    && !Spent(item, around, now)
    && around.daemonConnected && item.agent in listed
    && (item.lastAttemptAt.Some? ==> item.lastAttemptAt.value + RetryDelay(item.attempts) <= now)
  }

  /** What is stored once it has been sent. */
  function Counted(item: Item, around: Surroundings, now: int, key: QueueKey): Item {
    item.(attempts := item.attempts + 1, lastAttemptAt := Some(now), lastError := around.sendError(key))
  }

  /** How it reads on the wire. */
  function Bytes(item: Item): Payload {
    if item.render.None? then Verbatim(item.envelope)
    else Rendered(ChannelEnvelope(item.render.value.body, item.render.value.redelivery + item.attempts))
  }

  /** A visit sends exactly what goes out and is still stored with the copied count, and touches nothing else it does not bury. */
  lemma VisitExact(s: HubState, r: HubRoster.Roster, around: Surroundings, now: int, key: QueueKey, item: Item)
    ensures var (s', outcome) := DispatchEntry(s, key, item, EnvOf(r, around, now, key, item));
            && (outcome.Died? <==> Spent(item, around, now))
            && (outcome.Sent? <==> GoesOut(item, r.listed, around, now) && key in s.queue && s.queue[key].attempts == item.attempts)
            && (outcome.Died? ==>
                  && s'.queue == s.queue - {key} && MarkerKey(item.id, item.agent) in s'.markers
                  && s'.markers == s.markers[MarkerKey(item.id, item.agent) := s'.markers[MarkerKey(item.id, item.agent)]]
                  && s'.markers[MarkerKey(item.id, item.agent)].Dead? && s'.markers[MarkerKey(item.id, item.agent)].key == key)
            && (outcome.Sent? ==>
                  && outcome.payload == Bytes(item) && outcome.retryAt == now + RetryDelay(item.attempts + 1)
                  && s' == s.(queue := s.queue[key := Counted(item, around, now, key)]))
            && (!outcome.Died? && !outcome.Sent? ==> s' == s)
            && (!outcome.Died? && !(around.daemonConnected && item.agent in r.listed) ==>
                  outcome == Waiting(item.enqueuedAt + 86_400_000))
  {
  }

  /** The reason a spent copy is filed with: its last failure if it ran out, the revocation otherwise. */
  lemma DeathReason(s: HubState, r: HubRoster.Roster, around: Surroundings, now: int, key: QueueKey, item: Item)
    requires Spent(item, around, now)
    ensures var m := MarkerKey(item.id, item.agent);
            var s' := DispatchEntry(s, key, item, EnvOf(r, around, now, key, item)).0;
            m in s'.markers && s'.markers[m] == Dead(key, item.(lastError := Some(
              if item.attempts < 40 && now - item.enqueuedAt < 86_400_000 then "organization_connection_revoked"
              else if item.lastError.Some? then item.lastError.value else "delivery limit exceeded")))
  {
  }

  // ---------------------------------------------------------------- a pass

  /** One frame to the daemon: the message, the agent it is for, and what it is handed. */
  datatype Frame = Frame(id: string, agent: string, envelope: Payload)

  datatype Sending = Sending(key: QueueKey, frame: Frame)

  function FrameFor(item: Item, payload: Payload): Frame {
    Frame(item.id, item.agent, payload)
  }

  /** The frame an entry goes out as. */
  function Reads(item: Item): Frame {
    Frame(id := item.id, agent := item.agent, envelope := Bytes(item))
  }

  /** What a pass sends, in its order. */
  function Wire(s: HubState, listing: seq<QueueKey>, envs: seq<DispatchEnv>): seq<Sending>
    requires |envs| == |listing| && forall k :: k in listing ==> k in s.queue
  {
    if listing == [] then []
    else
      var n := |listing| - 1;
      var outcome := DispatchEntry(HubDispatch.Pass(s, listing[..n], envs[..n]).0, listing[n], s.queue[listing[n]], envs[n]).1;
      Wire(s, listing[..n], envs[..n]) + if outcome.Sent? then [Sending(listing[n], FrameFor(s.queue[listing[n]], outcome.payload))] else []
  }

  lemma WireSnoc(s: HubState, listing: seq<QueueKey>, envs: seq<DispatchEnv>, i: nat)
    requires |envs| == |listing| && i < |listing| && forall k :: k in listing ==> k in s.queue
    ensures var outcome := DispatchEntry(HubDispatch.Pass(s, listing[..i], envs[..i]).0, listing[i], s.queue[listing[i]], envs[i]).1;
            Wire(s, listing[..i + 1], envs[..i + 1]) ==
            Wire(s, listing[..i], envs[..i]) + if outcome.Sent? then [Sending(listing[i], FrameFor(s.queue[listing[i]], outcome.payload))] else []
  {
    assert listing[..i + 1][..i] == listing[..i] && envs[..i + 1][..i] == envs[..i];
  }

  /** What becomes of a listed entry. */
  predicate Visited(item: Item, queue: map<QueueKey, Item>, listed: map<string, string>, around: Surroundings, now: int, k: QueueKey) {
    if Spent(item, around, now) then k !in queue
    else k in queue && queue[k] == if GoesOut(item, listed, around, now) then Counted(item, around, now, k) else item
  }

  lemma EnvsPrefix(s: HubState, r: HubRoster.Roster, around: Surroundings, now: int, listing: seq<QueueKey>, n: nat)
    requires n <= |listing| && forall k :: k in listing ==> k in s.queue
    ensures EnvsOf(s, r, around, now, listing)[..n] == EnvsOf(s, r, around, now, listing[..n])
  {
  }

  /** The frames of a pass over the listing: one for each entry that goes out. */
  ghost predicate WireIs(wire: seq<Sending>, s: HubState, r: HubRoster.Roster, around: Surroundings, now: int, listing: seq<QueueKey>)
    requires forall k :: k in listing ==> k in s.queue
  {
    && (forall k, frame :: Sending(k, frame) in wire <==>
          k in listing && GoesOut(s.queue[k], r.listed, around, now) && frame == Reads(s.queue[k]))
    && (forall i, j :: 0 <= i < j < |wire| ==> wire[i].key != wire[j].key)
  }

  lemma WireStep(wire: seq<Sending>, s: HubState, r: HubRoster.Roster, around: Surroundings, now: int, listing: seq<QueueKey>)
    requires listing != [] && (forall k :: k in listing ==> k in s.queue) && listing[|listing| - 1] !in listing[..|listing| - 1]
    requires WireIs(wire, s, r, around, now, listing[..|listing| - 1])
    ensures var last := listing[|listing| - 1];
            WireIs(wire + if GoesOut(s.queue[last], r.listed, around, now) then [Sending(last, Reads(s.queue[last]))] else [],
                   s, r, around, now, listing)
  {
    var n := |listing| - 1;
    assert forall k :: k in listing <==> k in listing[..n] || k == listing[n];
    forall i | 0 <= i < |wire| ensures wire[i].key != listing[n] {
      assert Sending(wire[i].key, wire[i].frame) in wire;
    }
  }

  /**
   Of a batch a pass sends exactly the entries that go out, each once and as it reads
   with the sends counted so far; it buries exactly the spent ones and leaves every other.
   */
  lemma {:induction false} PassExact(s: HubState, r: HubRoster.Roster, around: Surroundings, now: int, listing: seq<QueueKey>)
    requires forall k :: k in listing ==> k in s.queue
    requires forall i, j :: 0 <= i < j < |listing| ==> listing[i] != listing[j]
    ensures var envs := EnvsOf(s, r, around, now, listing);
            && AllVisited(s, HubDispatch.Pass(s, listing, envs).0.queue, r.listed, around, now, listing)
            && WireIs(Wire(s, listing, envs), s, r, around, now, listing)
  {
    if listing != [] {
      var n := |listing| - 1;
      PassExact(s, r, around, now, listing[..n]);
      EnvsPrefix(s, r, around, now, listing, n);
      assert listing[n] !in listing[..n];
      PassStep(s, r, around, now, listing);
      WireStep(Wire(s, listing[..n], EnvsOf(s, r, around, now, listing[..n])), s, r, around, now, listing);
    }
  }

  /** What becomes of the listed entries, and that nothing becomes of the others. */
  ghost predicate AllVisited(
    s: HubState, queue: map<QueueKey, Item>, listed: map<string, string>, around: Surroundings, now: int, listing: seq<QueueKey>)
    requires forall k :: k in listing ==> k in s.queue
  {
    && (forall k :: k in listing ==> Visited(s.queue[k], queue, listed, around, now, k))
    && (forall k :: k !in listing ==> (k in queue <==> k in s.queue) && (k in queue ==> queue[k] == s.queue[k]))
  }

  lemma PassStep(s: HubState, r: HubRoster.Roster, around: Surroundings, now: int, listing: seq<QueueKey>)
    requires listing != [] && (forall k :: k in listing ==> k in s.queue) && listing[|listing| - 1] !in listing[..|listing| - 1]
    requires var n := |listing| - 1;
             AllVisited(s, HubDispatch.Pass(s, listing[..n], EnvsOf(s, r, around, now, listing)[..n]).0.queue, r.listed, around, now, listing[..n])
    ensures var n := |listing| - 1;
            var envs := EnvsOf(s, r, around, now, listing);
            && AllVisited(s, HubDispatch.Pass(s, listing, envs).0.queue, r.listed, around, now, listing)
            && Wire(s, listing, envs) == Wire(s, listing[..n], envs[..n]) +
                 if GoesOut(s.queue[listing[n]], r.listed, around, now) then [Sending(listing[n], Reads(s.queue[listing[n]]))] else []
  {
    var n := |listing| - 1;
    var last := listing[n];
    var s0 := HubDispatch.Pass(s, listing[..n], EnvsOf(s, r, around, now, listing)[..n]).0;
    assert s0.queue[last] == s.queue[last];
    VisitExact(s0, r, around, now, last, s.queue[last]);
    var s' := DispatchEntry(s0, last, s.queue[last], EnvOf(r, around, now, last, s.queue[last])).0;
    VisitedStep(s, s0.queue, s'.queue, r.listed, around, now, listing);
  }

  lemma VisitedStep(
    s: HubState, queue: map<QueueKey, Item>, queue': map<QueueKey, Item>, listed: map<string, string>, around: Surroundings, now: int,
    listing: seq<QueueKey>)
    requires listing != [] && (forall k :: k in listing ==> k in s.queue) && listing[|listing| - 1] !in listing[..|listing| - 1]
    requires AllVisited(s, queue, listed, around, now, listing[..|listing| - 1])
    requires var last := listing[|listing| - 1];
             && Visited(s.queue[last], queue', listed, around, now, last)
             && forall k :: k != last ==> (k in queue' <==> k in queue) && (k in queue' ==> queue'[k] == queue[k])
    ensures AllVisited(s, queue', listed, around, now, listing)
  {
    var n := |listing| - 1;
    assert forall k :: k in listing <==> k in listing[..n] || k == listing[n];
  }
}
