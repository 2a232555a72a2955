/**
 Who may join and post, and what is stored then (src/do/room.ts), told by the stored
 fields; and what a post's fan-out asks the hubs of its members to queue.
 */
module RoomExact {
  import opened Common
  import opened RoomModel
  import HubModel
  import RoomFanOut

  lemma JoinExact(s: RoomState, address: string, check: JoinCheck, now: int)
    ensures var (s', result) := Join(s, address, check, now);
            && (result == InviteOnly <==> check.policy == Invite && check.source == ByAgent)
            && (result == NotConnected <==> !(check.policy == Invite && check.source == ByAgent) && !check.connectionValid)
            && (result == Joined <==>
                !(check.policy == Invite && check.source == ByAgent) && check.connectionValid && address !in s.members && |s.members| < 64)
            && (result == RoomFull ==> address !in s.members && |s.members| >= 64)
            && (result == AlreadyMember ==> address in s.members)
            && (result != Joined ==> s' == s)
            && (result == Joined ==>
                  s' == s.(members := s.members[address := Member(address := address, org := check.memberOrg, joinedAt := now, lastAcked := 0)]))
  {
  }

  lemma LeaveExact(s: RoomState, address: string)
    ensures var (s', left) := Leave(s, address);
            && (left <==> address in s.members) && s' == s.(members := s'.members)
            && forall a :: a in s'.members <==> a in s.members && a != address
    ensures forall a :: a in Leave(s, address).0.members ==> Leave(s, address).0.members[a] == s.members[a]
  {
  }

  /** The operator, or a member whose organization is the room's or connected to it. */
  predicate Admits(s: RoomState, roomOrg: string, input: PostInput) {
    input.from == "operator@transit"
    || (input.from in s.members && (s.members[input.from].org == roomOrg || input.senderConnected))
  }

  /** A post that is neither too large nor a stranger's is answered with the retained entry of its id, or stored as the next. */
  lemma PostExact(s: RoomState, roomOrg: string, input: PostInput, now: int)
    ensures var (s', answer) := Post(s, roomOrg, input, now);
            && (answer == Err(BodyTooLarge) <==> input.bodyTooLarge)
            && (answer == Err(NotMember) <==> !input.bodyTooLarge && !Admits(s, roomOrg, input))
            && (answer.Err? ==> s' == s)
            && (answer.Ok? && input.id in s.ids && s.ids[input.id] in s.messages ==>
                  s' == s && answer.value == Posted(s.messages[s.ids[input.id]], true))
            && (answer.Ok? && !(input.id in s.ids && s.ids[input.id] in s.messages) ==>
                  && !answer.value.duplicate
                  && answer.value.entry == Entry(id := input.id, number := s.sequence + 1, from := input.from, body := input.body,
                                                 replyTo := input.replyTo, createdAt := now)
                  && s' == s.(sequence := s.sequence + 1,
                              messages := s.messages[s.sequence + 1 := answer.value.entry],
                              ids := s.ids[input.id := s.sequence + 1]))
  {
  }

  /** A sweep deletes, of the oldest 256, exactly what is older than seven days, and their ids. */
  lemma PruneExact(s: RoomState, listing: seq<nat>, now: int)
    requires IsOldest(s, listing) && Inverse(s)
    ensures var s' := Prune(s, listing, now);
            && s'.sequence == s.sequence && s'.members == s.members
            && (forall n :: n in s'.messages <==> n in s.messages && !(n in listing && s.messages[n].createdAt < now - 604_800_000))
            && (forall n :: n in s'.messages ==> s'.messages[n] == s.messages[n])
            && (forall id :: id in s'.ids <==> id in s.ids && s.ids[id] in s'.messages)
            && (forall id :: id in s'.ids ==> s'.ids[id] == s.ids[id])
    ensures |listing| <= 256
  {
  }

  lemma AcknowledgeExact(s: RoomState, address: string, n: nat)
    ensures var s' := Acknowledge(s, address, n);
            if address in s.members && n > s.members[address].lastAcked
            then s' == s.(members := s.members[address := s.members[address].(lastAcked := n)]) else s' == s
  {
  }

  // ---------------------------------------------------------------- fan-out

  /** What a member's hub is asked to queue: the entry's id, text and number, for the member's own agent and address, as the room's. */
  lemma AskedExact(entry: Entry, roomOrg: string, roomName: string, route: RoomFanOut.Route, connectionId: Option<string>)
    ensures var input := RoomFanOut.InputFor(entry, roomOrg, roomName, route, connectionId);
            && input.id == entry.id && input.envelope == entry.body && input.org == roomOrg
            && input.agent == route.agent && input.targetAddr == route.agent + "@" + route.hub
            && input.roomName == Some(roomName) && input.roomSeq == Some(entry.number)
            && input.render.None? && input.enqueuedAt.None? && !input.redelivery && input.connectionId == connectionId
  {
  }

  /** An entry a hub stores for a member it had no marker of. */
  ghost predicate StoredFor(hub: HubModel.HubState, entry: Entry, roomOrg: string, roomName: string, route: RoomFanOut.Route, connectionId: Option<string>, now: int) {
    var m := HubModel.MarkerKey(entry.id, route.agent);
    && m in hub.markers && hub.markers[m].Queued? && hub.markers[m].key in hub.queue
    && var item := hub.queue[hub.markers[m].key];
       && item.id == entry.id && item.agent == route.agent && item.targetAddr == route.agent + "@" + route.hub
       && item.envelope == entry.body && item.org == roomOrg && item.roomName == Some(roomName) && item.roomSeq == Some(entry.number)
       && item.connectionId == connectionId && item.enqueuedAt == now && item.attempts == 0
  }

  lemma DeliveredExact(
    w: RoomFanOut.World, entry: Entry, roomOrg: string, roomName: string, route: RoomFanOut.Route, connectionId: Option<string>,
    able: set<RoomFanOut.Route>, now: int)
    requires !RoomFanOut.Reached(w, entry.id, route)
    ensures var w' := RoomFanOut.DeliverTo(w, RoomFanOut.InputFor(entry, roomOrg, roomName, route, connectionId), route, able, now);
            && w'.room == w.room && (forall hub :: hub != route.hub ==> RoomFanOut.HubAt(w', hub) == RoomFanOut.HubAt(w, hub))
            && (route in able ==> StoredFor(RoomFanOut.HubAt(w', route.hub), entry, roomOrg, roomName, route, connectionId, now))
            && (route !in able ==> RoomFanOut.HubAt(w', route.hub) == RoomFanOut.HubAt(w, route.hub))
  {
  }

  /** The routes a post is fanned out to: those of every member but its sender. */
  ghost predicate RoutesOf(s: RoomState, from: string, recipients: seq<RoomFanOut.Route>) {
    && (forall i :: 0 <= i < |recipients| ==>
          recipients[i].agent + "@" + recipients[i].hub in s.members && recipients[i].agent + "@" + recipients[i].hub != from)
    && (forall a :: a in s.members && a != from ==> exists i :: 0 <= i < |recipients| && recipients[i].agent + "@" + recipients[i].hub == a)
  }

  /** So every member but the sender is reached, if it is connected and can receive, by the attempt that commits the post and no other. */
  lemma MembersReached(
    w: RoomFanOut.World, roomOrg: string, roomName: string, input: PostInput, first: RoomFanOut.Attempt, later: seq<RoomFanOut.Attempt>, address: string)
    requires !input.bodyTooLarge && Admits(w.room, roomOrg, input) && input.id !in w.room.ids && !first.stopsAfterCommit
    requires RoutesOf(w.room, input.from, first.recipients)
    requires forall r :: r in first.recipients ==> r in first.able && !RoomFanOut.Reached(w, input.id, r)
    requires address in w.room.members && address != input.from
    ensures var w' := RoomFanOut.Posts(RoomFanOut.Post(w, roomOrg, roomName, input, first).0, roomOrg, roomName, input, later);
            exists r: RoomFanOut.Route :: r.agent + "@" + r.hub == address && RoomFanOut.Reached(w', input.id, r)
  {
    var i :| 0 <= i < |first.recipients| && first.recipients[i].agent + "@" + first.recipients[i].hub == address;
    assert first.recipients[i] in first.recipients;
    RoomFanOut.CommittingAttemptDecides(w, roomOrg, roomName, input, first, later, first.recipients[i]);
  }
}
