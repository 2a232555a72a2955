/**
 One send frame from the sender's hub to its target (`admitSend` in
 src/do/host-hub.ts): the `s:id` mark, the checks, the effect on the target hub or
 room, and the stored outcome. The sender's hub may stop at any await in between,
 and the daemon's spool retries the same frame until it is answered for good.
 */
module SendPath {
  import opened Common
  import HubModel
  import HubRename
  import HubRuns
  import RoomModel
  import SpoolModel

  datatype SendState = Processing | Acked | Nacked(code: string)

  datatype SendOutcome = Ack | Nak(code: string)

  datatype ParseError = ReservedName | BadAddress

  /** Everything the admission checks ask, in the order they ask it. */
  datatype Checks = Checks(
    parseError: Option<ParseError>,
    senderOnHost: bool,      // an agent of this host, on its roster when that is verified
    tokenGranted: bool,
    bodyFits: bool,
    planAllows: bool,
    connected: bool,         // the target organization is this one or connected to it
    targetExists: bool,      // the host is enrolled, or the room exists and has the sender as member
    routable: bool)          // the target hub can receive for the agent

  datatype Target =
    | ToAgent(input: HubModel.DeliveryInput)
    | ToRoom(roomOrg: string, post: RoomModel.PostInput)

  /** The first check that fails in the hub itself. */
  function EarlyRefusal(checks: Checks): Option<string> {
    if checks.parseError == Some(ReservedName) then Some("reserved_name")
    else if checks.parseError.Some? then Some("no_route")
    else if !checks.senderOnHost then Some("no_route")
    else if !checks.tokenGranted then Some("rate_limited")
    else if !checks.bodyFits then Some("body_too_large")
    else if !checks.planAllows then Some("plan_limit")
    else None
  }

  /** The first that fails of those that ask D1 or the room. */
  function LateRefusal(target: Target, checks: Checks): Option<string> {
    if !checks.connected then Some("no_route")
    else if !checks.targetExists then Some(if target.ToRoom? then "not_member" else "no_route")
    else None
  }

  /** The first check that fails before the target is touched. */
  function Refusal(target: Target, checks: Checks): Option<string> {
    if EarlyRefusal(checks).Some? then EarlyRefusal(checks) else LateRefusal(target, checks)
  }

  datatype World = World(
    sends: map<string, SendState>,      // the sender's hub
    hub: HubModel.HubState,             // the target's hub
    room: RoomModel.RoomState)          // the target room

  /** Where an attempt stops short, if it does: the sender's hub stops, or the call to the target fails, before or after its effect. */
  datatype Stop = AfterMark | AfterEffect | CallFails(reached: bool) | Completes

  function PostCode(error: RoomModel.PostError): string {
    match error
    case BodyTooLarge => "body_too_large"
    case NotMember => "not_member"
  }

  /** The effect on the target and the outcome it leads to. */
  function Effect(w: World, target: Target, checks: Checks, now: int): (World, SendOutcome) {
    match target
    case ToAgent(input) =>
      var (hub', status) := HubModel.QueueDelivery(w.hub, input, checks.routable, now);
      (w.(hub := hub'), if status.NoRoute? then Nak("no_route") else Ack)
    case ToRoom(roomOrg, post) =>
      var (room', answer) := RoomModel.Post(w.room, roomOrg, post, now);
      (w.(room := room'), if answer.Err? then Nak(PostCode(answer.error)) else Ack)
  }

  function Stored(outcome: SendOutcome): SendState {
    match outcome
    case Ack => Acked
    case Nak(code) => Nacked(code)
  }

  /** A failed call to a hub leaves the frame marked; one to a room is taken for a refusal, and stored. */
  function CallFailed(w: World, id: string, target: Target): (World, Option<SendOutcome>) {
    if target.ToAgent? then (w, None)
    else (w.(sends := w.sends[id := Nacked("not_member")]), Some(Nak("not_member")))
  }

  /** One attempt of frame `id`; no answer when the hub stopped first. */
  function Attempt(w: World, id: string, target: Target, checks: Checks, now: int, stop: Stop): (World, Option<SendOutcome>) {
    if id in w.sends && w.sends[id].Acked? then (w, Some(Ack))
    else if id in w.sends && w.sends[id].Nacked? then (w, Some(Nak(w.sends[id].code)))
    else
      var marked := w.(sends := w.sends[id := Processing]);
      if stop.AfterMark? then (marked, None)
      else
        var refusal := Refusal(target, checks);
        if refusal.Some? then (marked.(sends := marked.sends[id := Nacked(refusal.value)]), Some(Nak(refusal.value)))
        else
          var (done, outcome) := Effect(marked, target, checks, now);
          if stop.CallFails? then CallFailed(if stop.reached then done else marked, id, target)
          else if stop.AfterEffect? then (done, None)
          else (done.(sends := done.sends[id := Stored(outcome)]), Some(outcome))
  }

  // ---------------------------------------------------------------- who is admitted

  /** Every check passes. */
  predicate Passes(checks: Checks) {
    && checks.parseError.None? && checks.senderOnHost && checks.tokenGranted && checks.bodyFits
    && checks.planAllows && checks.connected && checks.targetExists
  }

  /** The target takes it: the hub can receive for the agent, or the room accepts the post. */
  predicate Takes(w: World, target: Target, checks: Checks, now: int) {
    match target
    case ToAgent(_) => checks.routable
    case ToRoom(roomOrg, post) => RoomModel.Post(w.room, roomOrg, post, now).1.Ok?
  }

  /** The code of the first check that fails, in their order. */
  ghost predicate IsFirstFailure(target: Target, checks: Checks, code: string) {
    if checks.parseError.Some? then code == (if checks.parseError.value.ReservedName? then "reserved_name" else "no_route")
    else if !checks.senderOnHost then code == "no_route"
    else if !checks.tokenGranted then code == "rate_limited"
    else if !checks.bodyFits then code == "body_too_large"
    else if !checks.planAllows then code == "plan_limit"
    else if !checks.connected then code == "no_route"
    else !checks.targetExists && code == (if target.ToRoom? then "not_member" else "no_route")
  }

  /**
   A frame not answered before touches its target, and is acked, only if every check
   passes; otherwise it is refused with the code of the first check that fails.
   */
  lemma RefusedExact(w: World, id: string, target: Target, checks: Checks, now: int, stop: Stop)
    requires id !in w.sends || w.sends[id].Processing?
    ensures var (w', answer) := Attempt(w, id, target, checks, now, stop);
            && (w'.hub != w.hub || w'.room != w.room || answer == Some(Ack) ==> Passes(checks))
            && (!Passes(checks) && !stop.AfterMark? ==>
                  && answer.Some? && answer.value.Nak? && IsFirstFailure(target, checks, answer.value.code)
                  && w' == w.(sends := w.sends[id := Nacked(answer.value.code)]))
  {
  }

  /** A completed attempt is acked exactly if every check passes and the target takes it. */
  lemma AdmittedExact(w: World, id: string, target: Target, checks: Checks, now: int)
    requires id !in w.sends || w.sends[id].Processing?
    ensures var (w', answer) := Attempt(w, id, target, checks, now, Completes);
            && (answer == Some(Ack) <==> Passes(checks) && Takes(w, target, checks, now))
            && (answer == Some(Ack) ==> w'.sends == w.sends[id := Acked])
            && (Passes(checks) && !Takes(w, target, checks, now) && target.ToAgent? ==> answer == Some(Nak("no_route")))
            && (answer == Some(Ack) && target.ToAgent? ==> Key(target.input) in w'.hub.markers)
  {
  }

  /** What reaches the target is the frame's own message or post. */
  lemma EffectExact(w: World, id: string, target: Target, checks: Checks, now: int, stop: Stop)
    requires id !in w.sends || w.sends[id].Processing?
    requires Passes(checks) && stop != CallFails(false) && !stop.AfterMark?
    ensures var w' := Attempt(w, id, target, checks, now, stop).0;
            && (target.ToAgent? ==>
                  w'.room == w.room && w'.hub == HubModel.QueueDelivery(w.hub, target.input, checks.routable, now).0)
            && (target.ToRoom? ==>
                  w'.hub == w.hub && w'.room == RoomModel.Post(w.room, target.roomOrg, target.post, now).0)
  {
  }

  // ---------------------------------------------------------------- runs of one frame

  /** Retries of the frame, and anything else that happens at its target meanwhile. */
  datatype Event =
    | Retry(checks: Checks, now: int, stop: Stop)
    | AtHub(op: HubRuns.HubOp)
    | AtPass(key: HubModel.QueueKey, copy: HubModel.Item, env: HubModel.DispatchEnv)  // a dispatch run visits whatever copy it holds

  function Key(input: HubModel.DeliveryInput): HubModel.MarkerKey {
    HubModel.MarkerKey(input.id, input.agent)
  }

  /** What the target's storage answers is true; nothing else is asked of what happens there. */
  ghost predicate Allowed(w: World, e: Event) {
    e.AtHub? ==> HubRuns.Possible(w.hub, e.op)
  }

  ghost function Happens(w: World, id: string, target: Target, e: Event): World
    requires Allowed(w, e)
  {
    match e
    case Retry(checks, now, stop) => Attempt(w, id, target, checks, now, stop).0
    case AtHub(op) => w.(hub := HubRuns.Apply(w.hub, op))
    case AtPass(key, copy, env) => w.(hub := HubModel.DispatchEntry(w.hub, key, copy, env).0)
  }

  ghost predicate AllowedRun(w: World, id: string, target: Target, events: seq<Event>)
    decreases |events|
  {
    events == [] || (Allowed(w, events[0]) && AllowedRun(Happens(w, id, target, events[0]), id, target, events[1..]))
  }

  ghost function RunEvents(w: World, id: string, target: Target, events: seq<Event>): World
    requires AllowedRun(w, id, target, events)
    decreases |events|
  {
    if events == [] then w else RunEvents(Happens(w, id, target, events[0]), id, target, events[1..])
  }

  /** How many queue entries the retries create: each is one new sequence number. */
  ghost function EntriesCreated(w: World, id: string, target: Target, events: seq<Event>): int
    requires target.ToAgent? && AllowedRun(w, id, target, events)
    decreases |events|
  {
    if events == [] then 0
    else
      var w' := Happens(w, id, target, events[0]);
      (if events[0].Retry? then w'.hub.sequence - w.hub.sequence else 0) + EntriesCreated(w', id, target, events[1..])
  }

  predicate RenamesAgent(e: Event, agent: string) {
    e.AtHub? && e.op.DoRename? && agent in e.op.renames
  }

  /** How often the recipient itself is renamed meanwhile. */
  function RecipientRenames(events: seq<Event>, agent: string): nat {
    if events == [] then 0 else (if RenamesAgent(events[0], agent) then 1 else 0) + RecipientRenames(events[1..], agent)
  }

  /** Renaming other agents, even onto this one's name, removes none of its markers. */
  lemma {:induction false} OtherRenamesKeepMarker(
    s: HubModel.HubState, listing: seq<HubModel.QueueKey>, renames: HubRename.Renames, slug: string, m: HubModel.MarkerKey)
    requires (forall k :: k in listing ==> k in s.queue) && m in s.markers && m.agent !in renames
    ensures m in HubRename.Rename(s, listing, renames, slug).markers
  {
    if listing != [] {
      OtherRenamesKeepMarker(s, listing[..|listing| - 1], renames, slug, m);
    }
  }

  /** Markers are never forgotten: only a rename of its own agent removes one. */
  lemma MarkerStays(s: HubModel.HubState, op: HubRuns.HubOp, m: HubModel.MarkerKey)
    requires HubRuns.Possible(s, op) && m in s.markers
    requires op.DoRename? ==> m.agent !in op.renames
    ensures m in HubRuns.Apply(s, op).markers
  {
    if op.DoRename? {
      OtherRenamesKeepMarker(s, op.listing, op.renames, op.slug, m);
    }
  }

  /**
   However often the frame is retried, wherever each retry stops, and whatever happens
   at the target meanwhile, the target gets at most one entry, plus one for each time
   the recipient itself was renamed in between.
   */
  lemma {:induction false} AtMostOneEntry(w: World, id: string, target: Target, events: seq<Event>)
    requires target.ToAgent? && !target.input.redelivery
    requires AllowedRun(w, id, target, events)
    ensures EntriesCreated(w, id, target, events) <=
            (if Key(target.input) in w.hub.markers then 0 else 1) + RecipientRenames(events, target.input.agent)
    decreases |events|
  {
    if events != [] {
      var e := events[0];
      if e.AtHub? && Key(target.input) in w.hub.markers && !RenamesAgent(e, target.input.agent) {
        MarkerStays(w.hub, e.op, Key(target.input));
      }
      AtMostOneEntry(Happens(w, id, target, e), id, target, events[1..]);
    }
  }

  lemma FirstThenRest(w: World, id: string, target: Target, e: Event, rest: seq<Event>)
    requires target.ToAgent? && Allowed(w, e) && AllowedRun(Happens(w, id, target, e), id, target, rest)
    ensures AllowedRun(w, id, target, [e] + rest)
    ensures var w' := Happens(w, id, target, e);
            EntriesCreated(w, id, target, [e] + rest) ==
            (if e.Retry? then w'.hub.sequence - w.hub.sequence else 0) + EntriesCreated(w', id, target, rest)
  {
    assert ([e] + rest)[0] == e && ([e] + rest)[1..] == rest;
  }

  const GOOD: Checks := Checks(None, true, true, true, true, true, true, true)

  /** The recipient is renamed after the message was queued and before its outcome is stored. */
  lemma RenamedMeanwhile(w: World, input: HubModel.DeliveryInput, id: string, to: string, now: int)
    requires w == World(map[], HubModel.EMPTY, RoomModel.EMPTY) && to != input.agent
    ensures var w1 := Attempt(w, id, ToAgent(input), GOOD, now, AfterEffect).0;
            var rename := HubRuns.DoRename([HubModel.QueueKey(input.agent, 1)], map[input.agent := to], "box");
            && HubRuns.Possible(w1.hub, rename)
            && w1.hub.sequence == HubRuns.Apply(w1.hub, rename).sequence == 1
            && Key(input) !in HubRuns.Apply(w1.hub, rename).markers
            && w1.sends[id].Processing?
  {
    var w1 := Attempt(w, id, ToAgent(input), GOOD, now, AfterEffect).0;
    var listing := [HubModel.QueueKey(input.agent, 1)];
    assert w1.hub.queue.Keys == {listing[0]} && HubRename.IsListing(w1.hub, listing);
    assert HubRename.Rename(w1.hub, listing[..0], map[input.agent := to], "box") == w1.hub;
  }

  /** It does happen: queued, renamed before the outcome is stored, and queued again under the old name, which is declared. */
  lemma RenameAllowsSecondEntry(input: HubModel.DeliveryInput, id: string, to: string, now: int)
    requires !input.redelivery && to != input.agent
    ensures var rename := HubRuns.DoRename([HubModel.QueueKey(input.agent, 1)], map[input.agent := to], "box");
            var events := [Retry(GOOD, now, AfterEffect)] + ([AtHub(rename)] + ([Retry(GOOD, now, Completes)] + []));
            var w := World(map[], HubModel.EMPTY, RoomModel.EMPTY);
            AllowedRun(w, id, ToAgent(input), events) && EntriesCreated(w, id, ToAgent(input), events) == 2
  {
    var rename := HubRuns.DoRename([HubModel.QueueKey(input.agent, 1)], map[input.agent := to], "box");
    var w := World(map[], HubModel.EMPTY, RoomModel.EMPTY);
    RenamedMeanwhile(w, input, id, to, now);
    var w1 := Happens(w, id, ToAgent(input), Retry(GOOD, now, AfterEffect));
    var w2 := Happens(w1, id, ToAgent(input), AtHub(rename));
    FirstThenRest(w2, id, ToAgent(input), Retry(GOOD, now, Completes), []);
    FirstThenRest(w1, id, ToAgent(input), AtHub(rename), [Retry(GOOD, now, Completes)] + []);
    FirstThenRest(w, id, ToAgent(input), Retry(GOOD, now, AfterEffect), [AtHub(rename)] + ([Retry(GOOD, now, Completes)] + []));
  }

  /** Once an outcome is stored, every later retry gets that answer and changes nothing. */
  lemma {:induction false} AnswerIsFinal(w: World, id: string, target: Target, events: seq<Event>, checks: Checks, now: int, stop: Stop)
    requires AllowedRun(w, id, target, events)
    requires id in w.sends && !w.sends[id].Processing?
    ensures var w' := RunEvents(w, id, target, events);
            && w'.sends == w.sends
            && Attempt(w', id, target, checks, now, stop) == (w', Some(if w.sends[id].Acked? then Ack else Nak(w.sends[id].code)))
    decreases |events|
  {
    if events != [] {
      AnswerIsFinal(Happens(w, id, target, events[0]), id, target, events[1..], checks, now, stop);
    }
  }

  /** An ack is never stored without the target having accepted the message, and it stays accepted while its recipient keeps its name. */
  lemma {:induction false} AckMeansAccepted(w: World, id: string, target: Target, events: seq<Event>)
    requires target.ToAgent? && AllowedRun(w, id, target, events) && RecipientRenames(events, target.input.agent) == 0
    requires id in w.sends && w.sends[id].Acked? ==> Key(target.input) in w.hub.markers
    ensures var w' := RunEvents(w, id, target, events);
            id in w'.sends && w'.sends[id].Acked? ==> Key(target.input) in w'.hub.markers
    decreases |events|
  {
    if events != [] {
      if events[0].AtHub? && Key(target.input) in w.hub.markers {
        MarkerStays(w.hub, events[0].op, Key(target.input));
      }
      AckMeansAccepted(Happens(w, id, target, events[0]), id, target, events[1..]);
    }
  }

  /**
   A nak does not mean the message was not accepted. An attempt that answers nak
   does so over an accepted message exactly when an earlier attempt reached the
   target and stopped before storing its outcome, and this one's checks refuse.
   */
  lemma NakOverAccepted(w: World, id: string, target: Target, checks: Checks, now: int)
    requires target.ToAgent? && (id !in w.sends || w.sends[id].Processing?)
    ensures var (w', answer) := Attempt(w, id, target, checks, now, Completes);
            answer.Some? && answer.value.Nak? && Key(target.input) in w'.hub.markers <==>
            Key(target.input) in w.hub.markers && (Refusal(target, checks).Some? || !checks.routable)
  {
  }

  /** It happens: stop after queueing, then be rate limited on the retry. */
  lemma NakDespiteDelivery(input: HubModel.DeliveryInput, id: string, now: int)
    ensures var good := Checks(None, true, true, true, true, true, true, true);
            var w := World(map[], HubModel.EMPTY, RoomModel.EMPTY);
            var w1 := Attempt(w, id, ToAgent(input), good, now, AfterEffect).0;
            var (w2, answer) := Attempt(w1, id, ToAgent(input), good.(tokenGranted := false), now, Completes);
            answer == Some(Nak("rate_limited")) && HubModel.IsQueued(w2.hub, Key(input))
  {
  }

  /** A room answers a retried frame with the entry it already has, and an ack means that it has one. */
  lemma RoomPostOnce(w: World, clock: int, id: string, target: Target, checks: Checks, now: int, stop: Stop)
    requires target.ToRoom? && RoomModel.Inv(w.room, clock)
    ensures var w' := Attempt(w, id, target, checks, now, stop).0;
            && (target.post.id in w.room.ids ==> w'.room == w.room)
            && w'.room.sequence <= w.room.sequence + 1
            && (id in w'.sends && w'.sends[id].Acked? && !(id in w.sends && w.sends[id].Acked?) ==> target.post.id in w'.room.ids)
  {
    PostFacts(w.room, clock, target.roomOrg, target.post, now);
  }

  /**
   A refusal of a room frame does not mean that the room refused it. An attempt that
   ends in a refusal over an entry of the ledger does so exactly when the room already
   has the message and a check refuses, the call fails or the room refuses; or when the
   checks pass and the room accepts, but the call fails on its way back.
   */
  lemma RoomNakOverEntry(w: World, id: string, target: Target, checks: Checks, now: int, stop: Stop)
    requires target.ToRoom? && (id !in w.sends || w.sends[id].Processing?) && (stop.Completes? || stop.CallFails?)
    ensures var (w', answer) := Attempt(w, id, target, checks, now, stop);
            var refused := Refusal(target, checks).Some?;
            var posts := RoomModel.Post(w.room, target.roomOrg, target.post, now).1.Ok?;
            answer.Some? && answer.value.Nak? && target.post.id in w'.room.ids <==>
            || (target.post.id in w.room.ids && (refused || stop.CallFails? || !posts))
            || (!refused && stop == CallFails(true) && posts)
  {
  }

  /** It does happen: the room commits, the call fails, and the sender is told for good that it is no member. */
  lemma RefusedThoughPosted(roomOrg: string, post: RoomModel.PostInput, id: string, now: int)
    requires post.from == RoomModel.OPERATOR && !post.bodyTooLarge
    ensures var w := World(map[], HubModel.EMPTY, RoomModel.EMPTY);
            var (w', answer) := Attempt(w, id, ToRoom(roomOrg, post), GOOD, now, CallFails(true));
            && answer == Some(Nak("not_member")) && SpoolModel.PermanentSendNak("not_member")
            && post.id in w'.room.ids && id in w'.sends && w'.sends[id] == Nacked("not_member")
  {
  }

  lemma PostFacts(room: RoomModel.RoomState, clock: int, roomOrg: string, post: RoomModel.PostInput, now: int)
    requires RoomModel.Inv(room, clock)
    ensures var (room', answer) := RoomModel.Post(room, roomOrg, post, now);
            && (post.id in room.ids ==> room' == room)
            && room'.sequence <= room.sequence + 1
            && (answer.Ok? ==> post.id in room'.ids)
  {
  }

  /** Retries of a frame to a room, and anything else that happens in the room meanwhile. */
  datatype RoomEvent =
    | RetryRoom(checks: Checks, now: int, stop: Stop)
    | AtRoom(op: RoomModel.RoomOp)

  function HappensAtRoom(w: World, id: string, target: Target, e: RoomEvent): World {
    match e
    case RetryRoom(checks, now, stop) => Attempt(w, id, target, checks, now, stop).0
    case AtRoom(op) => w.(room := RoomModel.Apply(w.room, op))
  }

  /** What one event does in the room: a retry that gets that far posts. */
  function RoomOps(w: World, id: string, target: Target, e: RoomEvent): seq<RoomModel.RoomOp>
    requires target.ToRoom?
  {
    match e
    case AtRoom(op) => [op]
    case RetryRoom(checks, now, stop) =>
      if (id in w.sends && !w.sends[id].Processing?) || stop.AfterMark? || stop == CallFails(false) || Refusal(target, checks).Some? then []
      else [RoomModel.DoPost(target.roomOrg, target.post, now)]
  }

  ghost function AllRoomOps(w: World, id: string, target: Target, events: seq<RoomEvent>): seq<RoomModel.RoomOp>
    requires target.ToRoom?
    decreases |events|
  {
    if events == [] then []
    else RoomOps(w, id, target, events[0]) + AllRoomOps(HappensAtRoom(w, id, target, events[0]), id, target, events[1..])
  }

  ghost function RunAtRoom(w: World, id: string, target: Target, events: seq<RoomEvent>): World
    decreases |events|
  {
    if events == [] then w else RunAtRoom(HappensAtRoom(w, id, target, events[0]), id, target, events[1..])
  }

  lemma {:induction false} RoomFollowsOps(w: World, id: string, target: Target, events: seq<RoomEvent>)
    requires target.ToRoom?
    ensures RunAtRoom(w, id, target, events).room == RoomModel.Run(w.room, AllRoomOps(w, id, target, events))
    decreases |events|
  {
    if events != [] {
      var w' := HappensAtRoom(w, id, target, events[0]);
      var ops := RoomOps(w, id, target, events[0]);
      RoomFollowsOps(w', id, target, events[1..]);
      var rest := AllRoomOps(w', id, target, events[1..]);
      if ops != [] {
        assert ops == [ops[0]];
        assert (ops + rest)[0] == ops[0] && (ops + rest)[1..] == rest;
        assert w'.room == RoomModel.Apply(w.room, ops[0]);
      } else {
        assert ops + rest == rest;
      }
    }
  }

  /**
   However often the frame is retried, and wherever each retry stops, its room gets at
   most one ledger entry, as long as that entry is not pruned in between.
   */
  lemma AtMostOneLedgerEntry(w: World, clock: int, id: string, target: Target, events: seq<RoomEvent>)
    requires target.ToRoom? && RoomModel.Inv(w.room, clock)
    requires var ops := AllRoomOps(w, id, target, events);
             RoomModel.LegalRun(w.room, clock, ops) && RoomModel.NeverPruned(w.room, ops, target.post.id)
    ensures RunAtRoom(w, id, target, events).room == RoomModel.Run(w.room, AllRoomOps(w, id, target, events))
    ensures RoomModel.Entries(w.room, AllRoomOps(w, id, target, events), target.post.id) <= (if target.post.id in w.room.ids then 0 else 1)
  {
    RoomFollowsOps(w, id, target, events);
    RoomModel.OneEntryPerId(w.room, clock, AllRoomOps(w, id, target, events), target.post.id);
  }

  /** Once a room frame's outcome is stored, every later retry gets that answer and posts nothing. */
  lemma {:induction false} RoomAnswerIsFinal(
    w: World, id: string, target: Target, events: seq<RoomEvent>, checks: Checks, now: int, stop: Stop)
    requires target.ToRoom? && id in w.sends && !w.sends[id].Processing?
    ensures var w' := RunAtRoom(w, id, target, events);
            && w'.sends == w.sends
            && Attempt(w', id, target, checks, now, stop) == (w', Some(if w.sends[id].Acked? then Ack else Nak(w.sends[id].code)))
    decreases |events|
  {
    if events != [] {
      RoomAnswerIsFinal(HappensAtRoom(w, id, target, events[0]), id, target, events[1..], checks, now, stop);
    }
  }

  // ---------------------------------------------------------------- with the sender's spool

  /** The daemon settles its claim with the code the hub answered. */
  function Flush(s: SpoolModel.Spool, c: SpoolModel.Claim, answer: SendOutcome, now: int): SpoolModel.Spool {
    SpoolModel.Settle(s, c, SpoolModel.Answered(if answer.Ack? then "" else answer.code), now)
  }

  /** A code the hub can answer retires the message exactly when it is an ack or one of the four permanent refusals. */
  lemma AnswerRetiresExact(s: SpoolModel.Spool, c: SpoolModel.Claim, answer: SendOutcome, now: int, ever: set<string>)
    requires SpoolModel.Conserved(s, ever) && SpoolModel.HandedOut(s, c, ever) && SpoolModel.Current(s, c)
    requires answer.Nak? ==> answer.code in {"reserved_name", "no_route", "rate_limited", "body_too_large", "plan_limit", "not_member"}
    ensures SpoolModel.WaitingName(c.message) in Flush(s, c, answer, now).outbox <==>
            answer.Nak? && answer.code in {"rate_limited", "plan_limit"}
  {
    SpoolModel.FlushSettles(s, c, SpoolModel.Answered(if answer.Ack? then "" else answer.code), now, ever);
  }
}
