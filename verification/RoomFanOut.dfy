/**
 Fan-out of a room post to the hubs of its members (`post` in src/do/room.ts): it
 follows the commit and is not part of it, and a retried post is answered from the
 ledger without fanning out.
 */
module RoomFanOut {
  import opened Common
  import HubModel
  import HubRuns
  import HubStale
  import RoomModel

  /** Where a member's messages are queued. */
  datatype Route = Route(hub: string, agent: string)

  datatype World = World(room: RoomModel.RoomState, hubs: map<string, HubModel.HubState>)

  function HubAt(w: World, hub: string): HubModel.HubState {
    if hub in w.hubs then w.hubs[hub] else HubModel.EMPTY
  }

  /** The hub of the route has accepted the message for its agent. */
  predicate Reached(w: World, id: string, route: Route) {
    HubModel.MarkerKey(id, route.agent) in HubAt(w, route.hub).markers
  }

  /** A member of another organization is reached over the connection between the two. */
  function InputFor(entry: RoomModel.Entry, roomOrg: string, roomName: string, route: Route, connectionId: Option<string>): HubModel.DeliveryInput {
    HubModel.DeliveryInput(entry.id, roomOrg, route.agent, route.agent + "@" + route.hub, entry.body, None, None,
                           Some(roomName), Some(entry.number), false, connectionId)
  }

  /** One member: `able` are the routes that are connected and can receive. */
  function DeliverTo(w: World, input: HubModel.DeliveryInput, route: Route, able: set<Route>, now: int): World {
    w.(hubs := w.hubs[route.hub := HubModel.QueueDelivery(HubAt(w, route.hub), input, route in able, now).0])
  }

  function Over(connections: map<Route, string>, route: Route): Option<string> {
    if route in connections then Some(connections[route]) else None
  }

  function FanOut(w: World, entry: RoomModel.Entry, roomOrg: string, roomName: string,
                  recipients: seq<Route>, able: set<Route>, connections: map<Route, string>, now: int): World
  {
    if recipients == [] then w
    else
      var n := |recipients| - 1;
      DeliverTo(FanOut(w, entry, roomOrg, roomName, recipients[..n], able, connections, now),
                InputFor(entry, roomOrg, roomName, recipients[n], Over(connections, recipients[n])), recipients[n], able, now)
  }

  /** One attempt: who the members' routes were, which of them could receive and over which connections, and whether the room stopped after its commit. */
  datatype Attempt = Attempt(recipients: seq<Route>, able: set<Route>, connections: map<Route, string>, now: int, stopsAfterCommit: bool)

  function Post(w: World, roomOrg: string, roomName: string, input: RoomModel.PostInput, a: Attempt)
    : (World, Option<Result<RoomModel.Posted, RoomModel.PostError>>)
  {
    var (room', answer) := RoomModel.Post(w.room, roomOrg, input, a.now);
    var w' := w.(room := room');
    if answer.Err? || answer.value.duplicate then (w', Some(answer))
    else if a.stopsAfterCommit then (w', None)
    else (FanOut(w', answer.value.entry, roomOrg, roomName, a.recipients, a.able, a.connections, a.now), Some(answer))
  }

  function Posts(w: World, roomOrg: string, roomName: string, input: RoomModel.PostInput, attempts: seq<Attempt>): World {
    if attempts == [] then w
    else
      var n := |attempts| - 1;
      Post(Posts(w, roomOrg, roomName, input, attempts[..n]), roomOrg, roomName, input, attempts[n]).0
  }

  lemma DeliverToReaches(w: World, input: HubModel.DeliveryInput, route: Route, able: set<Route>, now: int, r: Route)
    requires input.agent == route.agent && !input.redelivery
    ensures Reached(DeliverTo(w, input, route, able, now), input.id, r) <==>
            Reached(w, input.id, r) || (r == route && r in able)
  {
  }

  /** Fan-out reaches exactly the recipients that can receive. */
  lemma {:induction false} FanOutReaches(w: World, entry: RoomModel.Entry, roomOrg: string, roomName: string,
                                         recipients: seq<Route>, able: set<Route>, connections: map<Route, string>, now: int, r: Route)
    ensures var w' := FanOut(w, entry, roomOrg, roomName, recipients, able, connections, now);
            && w'.room == w.room
            && (Reached(w', entry.id, r) <==> Reached(w, entry.id, r) || (r in recipients && r in able))
  {
    if recipients != [] {
      var n := |recipients| - 1;
      FanOutReaches(w, entry, roomOrg, roomName, recipients[..n], able, connections, now, r);
      assert r in recipients <==> r in recipients[..n] || r == recipients[n];
      DeliverToReaches(FanOut(w, entry, roomOrg, roomName, recipients[..n], able, connections, now),
                       InputFor(entry, roomOrg, roomName, recipients[n], Over(connections, recipients[n])), recipients[n], able, now, r);
    }
  }

  /**
   Retries of one post: the attempt that commits the entry decides for good which
   members it reaches. If the room stopped right after the commit nobody is reached,
   although every later attempt is answered with the committed entry.
   */
  lemma {:induction false} CommittingAttemptDecides(
    w: World, roomOrg: string, roomName: string, input: RoomModel.PostInput, first: Attempt, later: seq<Attempt>, r: Route)
    requires !input.bodyTooLarge && RoomModel.MayPost(w.room, roomOrg, input)
    requires input.id !in w.room.ids && !Reached(w, input.id, r)
    ensures var w' := Posts(Post(w, roomOrg, roomName, input, first).0, roomOrg, roomName, input, later);
            && (Reached(w', input.id, r) <==> !first.stopsAfterCommit && r in first.recipients && r in first.able)
            && w'.room.sequence == w.room.sequence + 1
            && (forall a :: Post(w', roomOrg, roomName, input, a) ==
                            (w', Some(Ok(RoomModel.Posted(RoomModel.Commit(w.room, input, first.now).1.entry, true)))))
    decreases |later|
  {
    if later == [] {
      var (room', posted) := RoomModel.Commit(w.room, input, first.now);
      FanOutReaches(w.(room := room'), posted.entry, roomOrg, roomName, first.recipients, first.able, first.connections, first.now, r);
    } else {
      CommittingAttemptDecides(w, roomOrg, roomName, input, first, later[..|later| - 1], r);
    }
  }

  // ---------------------------------------------------------------- from the queue to the ack

  /** Only channel deliveries are ever queued as redeliveries; a room message is not. */
  predicate NoRedelivery(steps: seq<HubStale.Step>, id: string) {
    forall i :: 0 <= i < |steps| && steps[i].Do? && steps[i].op.DoQueue? && steps[i].op.input.id == id ==>
                  !steps[i].op.input.redelivery
  }

  /** A message not redelivered keeps its content for the pair over any run. */
  lemma {:induction false} ContentStays(c: HubStale.Stale, steps: seq<HubStale.Step>, m: HubModel.MarkerKey, content: HubRuns.Message)
    requires HubStale.Sound(c) && HubStale.EnabledRun(c, steps) && HubStale.CarefulRun(c, steps) && NoRedelivery(steps, m.id)
    requires m in c.hub.markers && HubRuns.Holds(c.hub, m, content)
    ensures HubStale.ContentSteps(c, steps, m, content) == content
    decreases |steps|
  {
    if steps != [] {
      var step := steps[0];
      assert NoRedelivery(steps[1..], m.id) by {
        assert forall i :: 0 <= i < |steps[1..]| ==> steps[1..][i] == steps[i + 1];
      }
      HubStale.StepSound(c, step);
      match step {
        case List(_, _, _) =>
        case Visit(run, key, env) => HubStale.VisitConserves(c, run, key, env, m, content);
        case Do(op) => HubRuns.StepConserves(c.hub, op, m, content);
      }
      ContentStays(HubStale.Next(c, step), steps[1..], HubStale.FollowStep(c, step, m), content);
    }
  }

  /**
   Acks carry issued numbers: once a hub accepts a fanned-out entry, and whatever it
   does afterwards, dispatch runs on old listings and renames included, an ack of that
   entry names the room and the number the room gave the message.
   */
  lemma AckCarriesIssuedNumber(
    c: HubStale.Stale, entry: RoomModel.Entry, roomOrg: string, roomName: string, route: Route, connectionId: Option<string>, now: int,
    steps: seq<HubStale.Step>, via: Option<string>)
    requires HubStale.Sound(c)
    requires HubModel.QueueDelivery(c.hub, InputFor(entry, roomOrg, roomName, route, connectionId), true, now).1 == HubModel.Accepted
    requires var c1 := HubStale.Next(c, HubStale.Do(HubRuns.DoQueue(InputFor(entry, roomOrg, roomName, route, connectionId), true, now)));
             HubStale.EnabledRun(c1, steps) && HubStale.CarefulRun(c1, steps) && NoRedelivery(steps, entry.id)
    ensures var c1 := HubStale.Next(c, HubStale.Do(HubRuns.DoQueue(InputFor(entry, roomOrg, roomName, route, connectionId), true, now)));
            var s := HubStale.RunSteps(c1, steps).hub;
            var m := HubStale.FollowSteps(c1, steps, HubModel.MarkerKey(entry.id, route.agent));
            && m in s.markers
            && (HubModel.IsQueued(s, m) ==>
                  && s.markers[m].key in s.queue
                  && HubModel.CallsAfterAck(s, Some(m), entry.id, via).room
                     == Some(HubModel.RoomCall(roomOrg, roomName, s.queue[s.markers[m].key].targetAddr, entry.number)))
  {
    var input, m := InputFor(entry, roomOrg, roomName, route, connectionId), HubModel.MarkerKey(entry.id, route.agent);
    var c1 := HubStale.Next(c, HubStale.Do(HubRuns.DoQueue(input, true, now)));
    var content := HubRuns.MessageOf(input);
    HubStale.StepSound(c, HubStale.Do(HubRuns.DoQueue(input, true, now)));
    ContentStays(c1, steps, m, content);
    HubStale.StaleRunConserves(c1, steps, m, content);
    var s, end := HubStale.RunSteps(c1, steps).hub, HubStale.FollowSteps(c1, steps, m);
    if HubModel.IsQueued(s, end) {
      assert HubRuns.Content(s.queue[s.markers[end].key]).roomSeq == Some(entry.number);
    }
  }
}
