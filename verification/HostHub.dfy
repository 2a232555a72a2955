/**
 One host's hub as the object that keeps its storage (src/do/host-hub.ts). Every
 method is proved to do what the state machine in HubModel, HubRename, HubDispatch
 and HubRoster says, so their laws hold of this object.
 */
module HostHub {
  import opened Common
  import opened HubModel
  import opened HubListings
  import AlarmBudget
  import HubDispatch
  import HubInvariant
  import HubRename
  import HubRoster
  import opened HubSends
  import Room
  import SendPath
  import Storage

  function MarkersOf(markers: map<MarkerKey, Marker>, id: string): set<MarkerKey> {
    set m | m in markers && m.id == id
  }

  function EntriesOf(queue: map<QueueKey, Item>, agent: string): set<QueueKey> {
    set k | k in queue && k.agent == agent
  }

  class HostHub {
    var sequence: nat
    var queue: map<QueueKey, Item>
    var markers: map<MarkerKey, Marker>
    var listed: map<string, string>
    var gone: map<string, int>
    var sends: map<string, SendPath.SendState>
    const alarms: AlarmBudget.AlarmStorage

    function State(): HubState
      reads this
    {
      HubState(sequence, queue, markers)
    }

    function RosterState(): HubRoster.Roster
      reads this
    {
      HubRoster.Roster(listed, gone)
    }

    constructor ()
      ensures State() == EMPTY && RosterState() == HubRoster.NOBODY
      ensures sends == map[] && fresh(alarms) && alarms.State() == AlarmBudget.FRESH
    {
      sends := map[];
      sequence, queue, markers, listed, gone := 0, map[], map[], map[], map[];
      alarms := new AlarmBudget.AlarmStorage();
    }

    // -------------------------------------------------------------- admission

    method CanReceive(name: string, declared: bool, now: int) returns (yes: bool)
      ensures yes == HubRoster.Routable(RosterState(), name, declared, now)
    {
      if name in listed {
        return true;
      }
      if name in gone && now - gone[name] < DELIVERY_TTL_MS {
        return true;
      }
      return declared;
    }

    method QueueDelivery(input: DeliveryInput, declared: bool, now: int) returns (status: QueueStatus)
      modifies this`sequence, this`queue, this`markers
      ensures (State(), status) ==
              HubModel.QueueDelivery(old(State()), input, HubRoster.Routable(old(RosterState()), input.agent, declared, now), now)
    {
      var routable := CanReceive(input.agent, declared, now);
      if !routable {
        return NoRoute;
      }
      var markerKey := MarkerKey(input.id, input.agent);
      if markerKey in markers && (!input.redelivery || markers[markerKey].Queued?) {
        return Duplicate;
      }
      sequence := sequence + 1;
      var queueKey := QueueKey(input.agent, sequence);
      queue := queue[queueKey := NewItem(input, now)];
      markers := markers[markerKey := Queued(queueKey)];
      return Accepted;
    }

    // -------------------------------------------------------------- finding markers

    method StoredMarkers(id: string) returns (listing: seq<MarkerKey>)
      ensures Storage.Lists(listing, MarkersOf(markers, id), ListedBefore)
    {
      MarkersOrdered(MarkersOf(markers, id), id);
      listing := Storage.List(MarkersOf(markers, id), ListedBefore);
    }

    method ResolveQueuedMarker(id: string, agent: Option<string>) returns (resolved: Option<MarkerKey>)
      ensures Resolves(State(), id, agent, resolved)
    {
      if agent.Some? && MarkerKey(id, agent.value) in markers && markers[MarkerKey(id, agent.value)].Queued? {
        return Some(MarkerKey(id, agent.value));
      }
      var listing := StoredMarkers(id);
      var first: Option<MarkerKey> := None;
      for i := 0 to |listing|
        invariant first.None? ==> forall m :: m in listing[..i] ==> !IsQueued(State(), m)
        invariant first.Some? ==>
                    && first.value in listing[..i] && IsQueued(State(), first.value)
                    && forall m :: m in listing[..i] && IsQueued(State(), m) && m != first.value ==> CollatesBefore(first.value, m)
      {
        var m := listing[i];
        assert m in listing && m !in listing[..i];
        assert forall k :: k in listing[..i + 1] <==> k in listing[..i] || k == m;
        if markers[m].Queued? {
          if first.None? {
            first := Some(m);
          } else if CollatesBefore(m, first.value) {
            CollatesFirst(m, first.value, listing[..i]);
            first := Some(m);
          } else {
            assert first.value in listing;
            CollatesTotal(m, first.value);
          }
        }
      }
      assert listing[..|listing|] == listing;
      return first;
    }

    method FindDeadMarker(id: string) returns (dead: Option<MarkerKey>)
      ensures FirstDead(State(), id, dead)
    {
      var listing := StoredMarkers(id);
      for i := 0 to |listing|
        invariant forall m :: m in listing[..i] && m in markers ==> !markers[m].Dead?
      {
        assert listing[i] in listing;
        if markers[listing[i]].Dead? {
          forall m | m in markers && m.id == id && markers[m].Dead? && m != listing[i] ensures ListedBefore(listing[i], m) {
            assert m in listing;
            var j :| 0 <= j < |listing| && listing[j] == m;
            assert i < j by {
              assert m !in listing[..i];
            }
          }
          return Some(listing[i]);
        }
        assert forall k :: k in listing[..i + 1] <==> k in listing[..i] || k == listing[i];
      }
      assert listing[..|listing|] == listing;
      return None;
    }

    // -------------------------------------------------------------- settling

    /** Settles the resolved entry and returns the calls that follow to the room and the integration. */
    method HandleDeliveryAck(id: string, agent: Option<string>, via: Option<string>)
      returns (resolved: Option<MarkerKey>, calls: AckCalls)
      modifies this`queue, this`markers
      ensures Resolves(old(State()), id, agent, resolved)
      ensures State() == HubModel.Ack(old(State()), resolved)
      ensures calls == CallsAfterAck(old(State()), resolved, id, via)
    {
      calls := AckCalls(None, None);
      resolved := ResolveQueuedMarker(id, agent);
      if resolved.None? {
        return;
      }
      var queueKey := markers[resolved.value].key;
      if queueKey !in queue {
        return;
      }
      var item := queue[queueKey];
      queue := queue - {queueKey};
      markers := markers[resolved.value := Injected];
      if via.Some? && IsChannelId(id) {
        calls := calls.(injection := Some(InjectionCall(item.org, id, item.targetAddr, via.value)));
      }
      if item.roomName.Some? && item.roomSeq.Some? {
        calls := calls.(room := Some(RoomCall(item.org, item.roomName.value, item.targetAddr, item.roomSeq.value)));
      }
    }

    method MarkDead(key: QueueKey, item: Item, error: string)
      modifies this`queue, this`markers
      ensures State() == HubModel.MarkDead(old(State()), key, item, error)
    {
      queue := queue - {key};
      markers := markers[MarkerKey(item.id, item.agent) := Dead(key, item.(lastError := Some(error)))];
    }

    method HandleDeliveryNak(id: string, code: string, retryable: bool, agent: Option<string>, now: int, limit: nat)
      returns (resolved: Option<MarkerKey>)
      modifies this`queue, this`markers, alarms
      ensures Resolves(old(State()), id, agent, resolved)
      ensures State() == HubModel.Nak(old(State()), resolved, code, retryable)
      ensures alarms.State() == HubDispatch.NakBudget(old(State()), resolved, code, retryable, old(alarms.State()), now, limit)
    {
      resolved := ResolveQueuedMarker(id, agent);
      if resolved.None? {
        return;
      }
      var queueKey := markers[resolved.value].key;
      if queueKey !in queue {
        return;
      }
      var item := queue[queueKey];
      if !retryable {
        MarkDead(queueKey, item, code);
      } else if code == "draft_busy" {
        queue := queue[queueKey := item.(attempts := Max(item.attempts - 1, 0), lastError := Some(code))];
        var _ := alarms.BudgetedAlarm(now, now + DRAFT_HOLD_BACKSTOP_MS, limit);
      } else {
        queue := queue[queueKey := item.(lastError := Some(code))];
        var _ := alarms.BudgetedAlarm(now, now + RetryDelay(item.attempts), limit);
      }
    }

    method SettleInbox(agent: string, id: string) returns (settled: bool)
      modifies this`queue, this`markers
      ensures (State(), settled) == HubModel.SettleInbox(old(State()), agent, id)
    {
      var m := MarkerKey(id, agent);
      if m !in markers || !markers[m].Queued? {
        return false;
      }
      var resolved, _ := HandleDeliveryAck(id, Some(agent), Some("mcp"));
      ResolvesUnique(old(State()), id, Some(agent), resolved, Some(m));
      return true;
    }

    /** Everything queued for one agent, in sequence order, changing nothing. */
    method ReadInbox(agent: string) returns (entries: seq<InboxEntry>)
      ensures exists listing: seq<QueueKey> ::
                && HubInvariant.IsInboxListing(State(), agent, listing)
                && (forall k :: k in listing ==> k in State().queue)
                && entries == InboxView(State(), listing)
    {
      EntriesOrdered(EntriesOf(queue, agent));
      var listing := Storage.List(EntriesOf(queue, agent), HubDispatch.StoredBefore);
      assert HubInvariant.IsInboxListing(State(), agent, listing) by {
        forall i, j | 0 <= i < j < |listing| ensures listing[i].number < listing[j].number {
          assert listing[i] in listing && listing[j] in listing;
        }
      }
      entries := [];
      for i := 0 to |listing|
        invariant |entries| == i
        invariant forall j :: 0 <= j < i ==> entries[j] == InboxView(State(), listing)[j]
      {
        assert listing[i] in listing;
        var item := queue[listing[i]];
        entries := entries + [InboxEntry(item.id, Outgoing(item), item.enqueuedAt)];
      }
      assert entries == InboxView(State(), listing);
    }

    /** Drops every queued entry of a message and marks its markers injected. */
    method CancelDelivery(id: string) returns (cancelled: nat)
      modifies this`queue, this`markers
      ensures State() == HubModel.Cancel(old(State()), id)
      ensures cancelled == |QueuedMarkers(old(State()), id)|
    {
      ghost var s := State();
      var listing := StoredMarkers(id);
      var snapshot := markers;
      cancelled := 0;
      for i := 0 to |listing|
        invariant State() == CancelListed(s, listing[..i])
        invariant cancelled == |CancelledOf(s, listing[..i])|
      {
        var m := listing[i];
        assert m in listing && m !in listing[..i];
        CancelledSnoc(s, listing, i);
        if snapshot[m].Queued? {
          queue := queue - {snapshot[m].key};
          markers := markers[m := Injected];
          cancelled := cancelled + 1;
        }
      }
      assert listing[..|listing|] == listing;
      CancelSame(s, listing, id);
    }

    method Requeue(id: string, now: int) returns (dead: Option<MarkerKey>)
      modifies this`queue, this`markers
      ensures FirstDead(old(State()), id, dead)
      ensures State() == HubModel.Requeue(old(State()), dead, now)
    {
      dead := FindDeadMarker(id);
      if dead.None? {
        return;
      }
      var marker := markers[dead.value];
      queue := queue[marker.key := marker.item.(attempts := 0, enqueuedAt := now, lastAttemptAt := None, lastError := None)];
      markers := markers[dead.value := Queued(marker.key)];
    }

    // -------------------------------------------------------------- the roster

    /** One name of the old roster: it is followed to a new name, kept, or starts its grace. */
    method ClearName(name: string, pane: string, agents: seq<HubRoster.RosterAgent>, before: HubRename.Renames, count: nat, now: int)
      returns (renames: HubRename.Renames, departures: nat)
      modifies this`listed, this`gone
      ensures HubRoster.Clearing(listed, gone, renames, departures) ==
              HubRoster.ClearOne(HubRoster.Clearing(old(listed), old(gone), before, count), agents, name, pane, now)
    {
      renames, departures := before, count;
      var current := HubRoster.PaneName(agents, pane);
      if current.Some? && current.value != name {
        renames := renames[name := current.value];
      }
      listed := listed - {name};
      if name !in HubRoster.Present(agents) && name !in renames {
        gone := gone[name := now];
        departures := departures + 1;
      }
    }

    /** Takes every name off the roster, noting which moved and which departed. */
    method ClearRoster(agents: seq<HubRoster.RosterAgent>, now: int) returns (renames: HubRename.Renames, departures: nat)
      modifies this`listed, this`gone
      ensures HubRoster.Clearing(listed, gone, renames, departures) == HubRoster.Cleared(old(RosterState()), agents, old(listed).Keys, now)
    {
      Storage.NamesOrdered(listed.Keys);
      var names := Storage.List(listed.Keys, Storage.NameBefore);
      HubRoster.ClearExact(RosterState(), agents, names, now);
      assert HubRoster.Visited(names) == listed.Keys;
      renames, departures := ClearListed(names, agents, now);
    }

    method ClearListed(names: seq<string>, agents: seq<HubRoster.RosterAgent>, now: int) returns (renames: HubRename.Renames, departures: nat)
      requires forall n :: n in names ==> n in listed
      modifies this`listed, this`gone
      ensures HubRoster.Clearing(listed, gone, renames, departures) == HubRoster.Clear(old(RosterState()), agents, names, now)
    {
      ghost var r := RosterState();
      var previous := listed;
      renames, departures := map[], 0;
      for i := 0 to |names|
        invariant HubRoster.Clearing(listed, gone, renames, departures) == HubRoster.Clear(r, agents, names[..i], now)
      {
        assert names[i] in names;
        assert names[..i + 1][..i] == names[..i];
        renames, departures := ClearName(names[i], previous[names[i]], agents, renames, departures, now);
      }
      assert names[..|names|] == names;
    }

    /** Whoever is on the new roster has its grace spent. */
    method ListRoster(agents: seq<HubRoster.RosterAgent>)
      requires listed == map[]
      modifies this`listed, this`gone
      ensures listed == HubRoster.Listed(agents)
      ensures gone == old(gone) - HubRoster.Present(agents)
    {
      for i := 0 to |agents|
        invariant listed == HubRoster.Listed(agents[..i])
        invariant gone == old(gone) - HubRoster.Present(agents[..i])
      {
        assert agents[..i + 1][..i] == agents[..i];
        assert HubRoster.Present(agents[..i + 1]) == HubRoster.Present(agents[..i]) + {agents[i].name};
        listed := listed[agents[i].name := agents[i].pane];
        gone := gone - {agents[i].name};
      }
      assert agents[..|agents|] == agents;
    }

    /** Replaces the roster, opens and spends graces, and says which names moved. */
    method ReplaceRoster(agents: seq<HubRoster.RosterAgent>, now: int) returns (renames: HubRename.Renames)
      modifies this`listed, this`gone
      ensures RosterState() == HubRoster.Publish(old(RosterState()), agents, now)
      ensures renames == HubRoster.RenamesOf(old(RosterState()), agents)
    {
      ghost var r := RosterState();
      var departures;
      renames, departures := ClearRoster(agents, now);
      HubRoster.ClearedAll(r, agents, now);
      ListRoster(agents);
      if departures > 0 {
        gone := HubRoster.Swept(gone, now);
      }
    }

    method MoveEntry(key: QueueKey, item: Item, renames: HubRename.Renames, slug: string)
      modifies this`queue, this`markers
      ensures State() == HubRename.RenameOne(old(State()), key, item, renames, slug)
    {
      if item.agent !in renames {
        return;
      }
      var renamed := renames[item.agent];
      var newKey := if key.agent == item.agent then QueueKey(renamed, key.number) else key;
      queue := (queue - {key})[newKey := item.(agent := renamed, targetAddr := renamed + "@" + slug)];
      markers := (markers - {MarkerKey(item.id, item.agent)})[MarkerKey(item.id, renamed) := Queued(newKey)];
    }

    /** A publish: the roster is replaced and every entry of a renamed agent moves to its new name. */
    method ApplyRoster(agents: seq<HubRoster.RosterAgent>, slug: string, now: int) returns (listing: seq<QueueKey>)
      modifies this`listed, this`gone, this`queue, this`markers
      ensures RosterState() == HubRoster.Publish(old(RosterState()), agents, now)
      ensures HubRename.IsListing(old(State()), listing) && Storage.Ascending(listing, HubDispatch.StoredBefore)
      ensures State() == HubRename.Rename(old(State()), listing, HubRoster.RenamesOf(old(RosterState()), agents), slug)
      ensures old(HubInvariant.Inv(State())) ==>
                (HubInvariant.Inv(State()) <==>
                 HubRename.CollisionFree(old(State()), listing, HubRoster.RenamesOf(old(RosterState()), agents)))
    {
      ghost var s, r := State(), RosterState();
      var renames := ReplaceRoster(agents, now);
      EntriesOrdered(queue.Keys);
      listing := Storage.List(queue.Keys, HubDispatch.StoredBefore);
      var snapshot := queue;
      for i := 0 to |listing|
        invariant State() == HubRename.Rename(s, listing[..i], renames, slug)
        invariant RosterState() == HubRoster.Publish(old(RosterState()), agents, now)
      {
        assert listing[i] in listing;
        HubRename.RenameSnoc(s, listing, renames, slug, i);
        MoveEntry(listing[i], snapshot[listing[i]], renames, slug);
      }
      assert listing[..|listing|] == listing;
      if HubInvariant.Inv(s) {
        HubRoster.PublishKeepsExact(s, r, agents, listing, slug);
      }
    }

    // -------------------------------------------------------------- dispatch

    method OldestEntries() returns (listing: seq<QueueKey>)
      ensures HubDispatch.IsBatch(State(), listing)
    {
      EntriesOrdered(queue.Keys);
      listing := Storage.List(queue.Keys, HubDispatch.StoredBefore);
      if |listing| > QUEUE_BATCH_SIZE {
        ghost var stored := listing;
        listing := listing[..QUEUE_BATCH_SIZE];
        assert forall j :: 0 <= j < QUEUE_BATCH_SIZE ==> stored[j] in listing;
        forall k | k in queue && k !in listing ensures forall l :: l in listing ==> HubDispatch.StoredBefore(l, k) {
          var i :| 0 <= i < |stored| && stored[i] == k;
          assert QUEUE_BATCH_SIZE <= i;
        }
      }
    }

    /** The loop over a listing: the earliest wake-up it noted, and what it sent. */
    method DispatchListed(listing: seq<QueueKey>, around: Surroundings, now: int) returns (nextAlarm: Option<int>, sent: seq<Sending>)
      requires forall k :: k in listing ==> k in queue
      modifies this`queue, this`markers
      ensures (State(), nextAlarm) ==
              HubDispatch.Pass(old(State()), listing, EnvsOf(old(State()), RosterState(), around, now, listing))
      ensures sent == Wire(old(State()), listing, EnvsOf(old(State()), RosterState(), around, now, listing))
    {
      var snapshot := queue;
      ghost var s := State();
      ghost var envs := EnvsOf(s, RosterState(), around, now, listing);
      nextAlarm, sent := None, [];
      for i := 0 to |listing|
        invariant (State(), nextAlarm) == HubDispatch.Pass(s, listing[..i], envs[..i])
        invariant sent == Wire(s, listing[..i], envs[..i])
      {
        assert listing[i] in listing;
        PassSnoc(s, listing, envs, i);
        WireSnoc(s, listing, envs, i);
        var outcome := DispatchOne(listing[i], snapshot[listing[i]], around, now);
        nextAlarm := HubDispatch.NextWake(nextAlarm, outcome);
        if outcome.Sent? {
          sent := sent + [Sending(listing[i], FrameFor(snapshot[listing[i]], outcome.payload))];
        }
      }
      assert listing[..|listing|] == listing && envs[..|listing|] == envs;
    }

    /** One pass over the oldest entries, the wake-up it asks the alarm budget for, and what it sends. */
    method DispatchQueued(around: Surroundings, now: int, limit: nat)
      returns (listing: seq<QueueKey>, nextAlarm: Option<int>, sent: seq<Sending>)
      modifies this`queue, this`markers, alarms
      ensures HubDispatch.IsBatch(old(State()), listing)
      ensures (State(), nextAlarm) ==
              HubDispatch.Pass(old(State()), listing, EnvsOf(old(State()), RosterState(), around, now, listing))
      ensures alarms.State() ==
              HubDispatch.ArmRequest(old(alarms.State()), HubDispatch.WakeRequest(listing, nextAlarm, now), now, limit)
      ensures AllVisited(old(State()), queue, listed, around, now, listing)
      ensures WireIs(sent, old(State()), RosterState(), around, now, listing)
    {
      listing := OldestEntries();
      PassExact(State(), RosterState(), around, now, listing);
      nextAlarm, sent := DispatchListed(listing, around, now);
      var request := HubDispatch.WakeRequest(listing, nextAlarm, now);
      if request.Some? {
        var _ := alarms.BudgetedAlarm(now, request.value, limit);
      }
    }

    /** One iteration: the item is the snapshot's copy, the claim reads what is stored now. */
    method DispatchOne(key: QueueKey, item: Item, around: Surroundings, now: int) returns (outcome: DispatchOutcome)
      modifies this`queue, this`markers
      ensures (State(), outcome) == DispatchEntry(old(State()), key, item, EnvOf(RosterState(), around, now, key, item))
      ensures outcome.Died? <==> Spent(item, around, now)
      ensures outcome.Sent? <==> GoesOut(item, listed, around, now) && key in old(queue) && old(queue)[key].attempts == item.attempts
      ensures outcome.Sent? ==> queue == old(queue)[key := Counted(item, around, now, key)] && outcome.payload == Bytes(item)
      ensures !outcome.Sent? && !outcome.Died? ==> queue == old(queue)
      ensures !outcome.Died? ==> markers == old(markers)
    {
      VisitExact(State(), RosterState(), around, now, key, item);
      if item.attempts >= MAX_DELIVERY_ATTEMPTS || now - item.enqueuedAt >= DELIVERY_TTL_MS {
        MarkDead(key, item, if item.lastError.Some? then item.lastError.value else "delivery limit exceeded");
        return Died;
      }
      if item.connectionId.Some? && !around.connectionActive(item.connectionId.value) {
        MarkDead(key, item, "organization_connection_revoked");
        return Died;
      }
      if !around.daemonConnected || item.agent !in listed {
        return Waiting(item.enqueuedAt + DELIVERY_TTL_MS);
      }
      var dueAt := if item.lastAttemptAt.None? then now else item.lastAttemptAt.value + RetryDelay(item.attempts);
      if dueAt > now {
        return Waiting(dueAt);
      }
      if key !in queue || queue[key].attempts != item.attempts {
        return Lost;
      }
      var attempted := item.(attempts := item.attempts + 1, lastAttemptAt := Some(now), lastError := None);
      queue := queue[key := attempted];
      var failure := around.sendError(key);
      if failure.Some? {
        queue := queue[key := attempted.(lastError := failure)];
      }
      assert queue == old(queue)[key := Attempted(item, EnvOf(RosterState(), around, now, key, item))];
      return Sent(Outgoing(item), now + RetryDelay(attempted.attempts));
    }

    // -------------------------------------------------------------- sending

    method RejectSend(id: string, code: string) returns (outcome: SendPath.SendOutcome)
      modifies this`sends
      ensures sends == old(sends)[id := SendPath.Nacked(code)] && outcome == SendPath.Nak(code)
    {
      sends := sends[id := SendPath.Nacked(code)];
      return SendPath.Nak(code);
    }

    /** The call to the target threw: only a room's is caught, and taken for a refusal. */
    method FailCall(id: string, target: SendPath.Target) returns (answer: Option<SendPath.SendOutcome>)
      modifies this`sends
      ensures sends == if target.ToRoom? then old(sends)[id := SendPath.Nacked("not_member")] else old(sends)
      ensures answer == if target.ToRoom? then Some(SendPath.Nak("not_member")) else None
    {
      if target.ToAgent? {
        return None;
      }
      var rejected := RejectSend(id, "not_member");
      return Some(rejected);
    }

    /**
     One attempt of a send frame from this hub to an agent of `hub`, which may be this
     very hub, or to `room`. Without an answer, the attempt stopped where `stop` says.
     */
    method AdmitSend(id: string, target: SendPath.Target, hub: HostHub, room: Room.Room, checks: SendPath.Checks, declared: bool,
                     now: int, stop: SendPath.Stop)
      returns (answer: Option<SendPath.SendOutcome>)
      requires target.ToRoom? ==> target.roomOrg == room.org
      requires target.ToAgent? ==>
                 checks.routable == HubRoster.Routable(hub.RosterState(), target.input.agent, declared, now)
      modifies this`sends, hub`sequence, hub`queue, hub`markers, room`sequence, room`messages, room`ids
      ensures (SendPath.World(sends, hub.State(), room.State()), answer) ==
              SendPath.Attempt(old(SendPath.World(sends, hub.State(), room.State())), id, target, checks, now, stop)
    {
      if id in sends && sends[id].Acked? {
        return Some(SendPath.Ack);
      }
      if id in sends && sends[id].Nacked? {
        return Some(SendPath.Nak(sends[id].code));
      }
      sends := sends[id := SendPath.Processing];
      if stop.AfterMark? {
        return None;
      }
      var refusal := SendPath.Refusal(target, checks);
      if refusal.Some? {
        var rejected := RejectSend(id, refusal.value);
        return Some(rejected);
      }
      if stop == SendPath.CallFails(false) {
        answer := FailCall(id, target);
        return;
      }
      var code: Option<string> := None;
      match target {
        case ToAgent(input) =>
          var status := hub.QueueDelivery(input, declared, now);
          code := if status.NoRoute? then Some("no_route") else None;
        case ToRoom(_, post) =>
          var posted := room.Post(post, now);
          code := if posted.Err? then Some(SendPath.PostCode(posted.error)) else None;
      }
      if stop.CallFails? {
        answer := FailCall(id, target);
        return;
      }
      if stop.AfterEffect? {
        return None;
      }
      if code.Some? {
        var rejected := RejectSend(id, code.value);
        return Some(rejected);
      }
      sends := sends[id := SendPath.Acked];
      return Some(SendPath.Ack);
    }
  }
}
