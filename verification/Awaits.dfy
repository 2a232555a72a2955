/**
 An integration with nothing atomic about it (src/do/integration.ts): whatever reads a
 delivery or a reply and then awaits another object or the connector is a run of its own,
 which holds the copy it read and writes that copy back when the answer comes. Storage
 alone is awaited in one step. A call to the hub may outlive its caller. The hub is the
 one that queues for the integration's target, or, for a room, for members of it, with its
 dispatch runs on old listings; of it only what storage answers is asked.
 */
module Awaits {
  import opened Common
  import AlarmBudget
  import opened IntegrationModel
  import IntegrationLaws
  import HubModel
  import HubRuns
  import HubStale

  /** A run, and the copies it holds across its await. */
  datatype Underway =
    | Dispatching(id: string, copy: Delivery, call: nat)                    // awaits the target
    | Reading(id: string, copy: Delivery)                                   // awaits the room's `hasMember`
    | Handling(id: string, copy: Delivery)                                  // likewise, or stands in the listing of a conversation
    | Checking(id: string, copy: Delivery, caller: string, message: string) // a reply, before it is recorded
    | Posting(id: string, copy: Delivery, reply: Reply, first: bool)        // awaits the connector

  /** A `queueDelivery` on its way, whatever has become of the dispatch that made it. */
  datatype Call = Call(id: string, copy: Delivery)

  /** The replies as retries list them, and the instant they compare each with. */
  datatype RetryList = RetryList(now: int, replies: map<string, Reply>)

  datatype World = World(
    s: Integration,
    pending: map<nat, Underway>,
    calls: map<nat, Call>,
    accepted: set<nat>,                     // calls answered queued or duplicate
    called: set<string>,                    // deliveries a dispatch has been called for and not begun
    listed: map<nat, RetryList>,
    hub: HubStale.Stale,
    agent: string)                          // the target, if it is an agent

  datatype Step =
    | Record(event: Event, id: string, tokenGranted: bool)        // `ingestEvent` up to its dispatch
    | Scan(now: int)                                              // `dispatchDue` lists what is due
    | Begin(run: nat, call: nat, id: string)                      // `dispatchDelivery` reads the delivery and calls
    | Reach(call: nat, agent: string, connection: Option<string>, routable: bool, now: int)  // a hub runs the call
    | Over(call: nat)                                             // a call is lost, or a room is done with it
    | End(run: nat, error: Option<string>, now: int)
    | BeginRead(run: nat, id: string)                             // by somebody who may be a member of the target room
    | EndRead(run: nat, member: bool, now: int)
    | BeginHandled(run: nat, id: string)
    | EndHandled(run: nat, allowed: bool, now: int)
    | BeginReply(run: nat, id: string, caller: string, message: string)
    | EndCheck(run: nat, allowed: bool, now: int)                 // owner and connector allow it, and it is recorded
    | ListReplies(list: nat, now: int)                            // `retryReplies` lists them
    | BeginPost(run: nat, list: nat, id: string)
    | EndPost(run: nat, error: Option<string>, now: int)
    | Activate
    | Restart                                                     // the integration loses all that is under way in it
    | Drain(id: string)                                           // the hub is asked to cancel
    | Do(op: Op)
    | AtHub(step: HubStale.Step)

  function Recorded(s: Integration, e: Event, id: string, tokenGranted: bool): Integration {
    if !s.active || !tokenGranted || e.key in s.eventKeys then s
    else s.(eventKeys := s.eventKeys[e.key := id], deliveries := s.deliveries[id := NewDelivery(e)])
  }

  function DueNow(s: Integration, now: int): set<string> {
    set id | id in s.deliveries && IsDue(s.deliveries[id], now)
  }

  predicate Dispatchable(s: Integration, id: string) {
    s.active && id in s.deliveries && s.deliveries[id].settledAt.None? && !s.deliveries[id].status.Dead?
  }

  /** A room passes on the connection of a member of another organization. */
  function InputOf(c: Call, agent: string, connection: Option<string>, now: int): HubModel.DeliveryInput {
    HubModel.DeliveryInput(c.id, "", agent, c.copy.targetAddr, "", None, Some(now), None, None, c.copy.attempts > 0, connection)
  }

  function Queueing(c: Call, step: Step): HubRuns.HubOp
    requires step.Reach?
  {
    HubRuns.DoQueue(InputOf(c, step.agent, step.connection, step.now), step.routable, step.now)
  }

  /** The call can go through: nobody answered yet, and the caller is the target or may be a member of the target room. */
  predicate MayReply(s: Integration, id: string, caller: string) {
    id !in s.replies && id in s.deliveries && (s.deliveries[id].targetAddr == caller || !s.deliveries[id].toAgent)
  }

  /** What a reply's recording and its post write back. */
  function Checked(s: Integration, p: Underway, now: int): Integration
    requires p.Checking?
  {
    ReplyRecorded(s, p.id, p.copy, NewReply(p.caller, p.message, now))
  }

  function PostDone(s: Integration, p: Underway, error: Option<string>, now: int): Integration
    requires p.Posting?
  {
    if error.None? then PostEnd(s, p.id, p.copy, p.reply, now)
    else if p.first then ReplyFailed(s, p.id, p.reply, error.value, now)
    else PostFailed(s, p.id, p.reply, error.value, now)
  }

  predicate Ends(step: Step) {
    step.End? || step.EndRead? || step.EndHandled? || step.EndCheck? || step.EndPost?
  }

  /** The step is how such a run goes on once its answer is there. */
  predicate Fits(p: Underway, step: Step) {
    match step
    case End(_, _, _) => p.Dispatching?
    case EndRead(_, _, _) => p.Reading?
    case EndHandled(_, _, _) => p.Handling?
    case EndCheck(_, _, _) => p.Checking?
    case EndPost(_, _, _) => p.Posting?
    case _ => false
  }

  /** What it leaves stored. */
  function Ended(s: Integration, p: Underway, step: Step): Integration
    requires Fits(p, step)
  {
    match step
    case End(_, error, now) => DispatchEnd(s, p.id, p.copy, error, now)
    case EndRead(_, member, now) => if member then ReadEnd(s, p.id, p.copy, now) else s
    case EndHandled(_, allowed, now) => if allowed then HandledEnd(s, p.id, p.copy, now).0 else s
    case EndCheck(_, allowed, now) => if allowed then Checked(s, p, now) else s
    case EndPost(_, error, now) => PostDone(s, p, error, now)
  }

  /** A reply that is recorded goes on to be posted; any other run is over. */
  function PendingEnded(pending: map<nat, Underway>, step: Step): map<nat, Underway>
    requires Ends(step) && step.run in pending && Fits(pending[step.run], step)
  {
    var p := pending[step.run];
    if step.EndCheck? && step.allowed
    then pending[step.run := Posting(p.id, RepliedTo(p.copy), NewReply(p.caller, p.message, step.now), true)]
    else pending - {step.run}
  }

  /** An agent is asked once, and its dispatch has succeeded only if the message was queued or known there. */
  ghost predicate Enabled(w: World, step: Step) {
    match step
    case Record(_, id, _) => id !in w.s.deliveries && id !in w.s.replies
    case Begin(run, call, id) =>
      run !in w.pending && call !in w.calls && call !in w.accepted && id in w.called && Dispatchable(w.s, id)
    case Reach(call, agent, connection, _, _) =>
      call in w.calls && (w.calls[call].copy.toAgent ==> agent == w.agent && connection.None?)
    case End(run, error, _) =>
      run in w.pending && Fits(w.pending[run], step)
      && (w.pending[run].copy.toAgent && error.None? ==> w.pending[run].call in w.accepted)
    case BeginRead(run, id) => run !in w.pending && id in w.s.deliveries && !w.s.deliveries[id].toAgent
    case EndRead(run, _, _) => run in w.pending && Fits(w.pending[run], step)
    case BeginHandled(run, id) => run !in w.pending && id in w.s.deliveries
    case EndHandled(run, _, _) => run in w.pending && Fits(w.pending[run], step)
    case BeginReply(run, id, caller, _) => run !in w.pending && MayReply(w.s, id, caller)
    case EndCheck(run, _, _) => run in w.pending && Fits(w.pending[run], step)
    case BeginPost(run, list, id) =>
      run !in w.pending && list in w.listed && id in w.listed[list].replies
      && Retries(w.listed[list].replies[id], w.listed[list].now) && id in w.s.deliveries
    case EndPost(run, _, _) => run in w.pending && Fits(w.pending[run], step)
    case Drain(id) => id in w.s.deliveries
    case Do(op) => op.DoIngest? ==> op.id !in w.s.deliveries && op.id !in w.s.replies
    case AtHub(step) =>
      HubStale.Possible(w.hub, step) && (step.Do? && step.op.DoQueue? ==> step.op.input.id !in w.s.deliveries)
    case _ => true
  }

  ghost function StoredNext(w: World, step: Step): Integration
    requires Enabled(w, step)
  {
    if Ends(step) then Ended(w.s, w.pending[step.run], step)
    else
      match step
      case Record(e, id, tokenGranted) => Recorded(w.s, e, id, tokenGranted)
      case Activate => w.s.(active := true)
      case Do(op) => Apply(w.s, op)
      case _ => w.s
  }

  ghost function PendingNext(w: World, step: Step): map<nat, Underway>
    requires Enabled(w, step)
  {
    if Ends(step) then PendingEnded(w.pending, step)
    else
      match step
      case Begin(run, call, id) => w.pending[run := Dispatching(id, w.s.deliveries[id], call)]
      case BeginRead(run, id) => w.pending[run := Reading(id, w.s.deliveries[id])]
      case BeginHandled(run, id) => w.pending[run := Handling(id, w.s.deliveries[id])]
      case BeginReply(run, id, caller, message) => w.pending[run := Checking(id, w.s.deliveries[id], caller, message)]
      case BeginPost(run, list, id) => w.pending[run := Posting(id, w.s.deliveries[id], w.listed[list].replies[id], false)]
      case Restart => map[]
      case _ => w.pending
  }

  /** An agent's hub is asked once; a room asks the hubs of its members until it is done. */
  ghost function CallsNext(w: World, step: Step): map<nat, Call>
    requires Enabled(w, step)
  {
    match step
    case Begin(_, call, id) => w.calls[call := Call(id, w.s.deliveries[id])]
    case Reach(call, _, _, _, _) => if w.calls[call].copy.toAgent then w.calls - {call} else w.calls
    case Over(call) => w.calls - {call}
    case _ => w.calls
  }

  ghost function AcceptedNext(w: World, step: Step): set<nat>
    requires Enabled(w, step)
  {
    if step.Reach? && !HubModel.QueueDelivery(w.hub.hub, Queueing(w.calls[step.call], step).input, step.routable, step.now).1.NoRoute?
    then w.accepted + {step.call} else w.accepted
  }

  ghost function CalledNext(w: World, step: Step): set<string>
    requires Enabled(w, step)
  {
    match step
    case Record(e, id, tokenGranted) => if id in Recorded(w.s, e, id, tokenGranted).deliveries then w.called + {id} else w.called
    case Scan(now) => w.called + DueNow(w.s, now)
    case Begin(_, _, id) => w.called - {id}
    case Restart => {}
    case _ => w.called
  }

  ghost function ListedNext(w: World, step: Step): map<nat, RetryList>
    requires Enabled(w, step)
  {
    match step
    case ListReplies(list, now) => w.listed[list := RetryList(now, w.s.replies)]
    case BeginPost(_, list, id) => w.listed[list := w.listed[list].(replies := w.listed[list].replies - {id})]
    case Restart => map[]
    case _ => w.listed
  }

  /** What the step is to the hub, if anything. */
  ghost function AtTheHub(w: World, step: Step): Option<HubStale.Step>
    requires Enabled(w, step)
  {
    match step
    case Reach(call, _, _, _, _) => Some(HubStale.Do(Queueing(w.calls[call], step)))
    case Drain(id) => Some(HubStale.Do(HubRuns.DoCancel(id)))
    case AtHub(step) => Some(step)
    case _ => None
  }

  ghost function HubNext(w: World, step: Step): HubStale.Stale
    requires Enabled(w, step)
  {
    var there := AtTheHub(w, step);
    if there.Some? then HubStale.Next(w.hub, there.value) else w.hub
  }

  ghost function Next(w: World, step: Step): World
    requires Enabled(w, step)
  {
    World(StoredNext(w, step), PendingNext(w, step), CallsNext(w, step), AcceptedNext(w, step), CalledNext(w, step),
          ListedNext(w, step), HubNext(w, step), w.agent)
  }

  ghost predicate EnabledRun(w: World, steps: seq<Step>)
    decreases |steps|
  {
    steps == [] || (Enabled(w, steps[0]) && EnabledRun(Next(w, steps[0]), steps[1..]))
  }

  ghost function RunSteps(w: World, steps: seq<Step>): World
    requires EnabledRun(w, steps)
    decreases |steps|
  {
    if steps == [] then w else RunSteps(Next(w, steps[0]), steps[1..])
  }

  lemma FirstThenRest(w: World, step: Step, rest: seq<Step>)
    requires Enabled(w, step) && EnabledRun(Next(w, step), rest)
    ensures EnabledRun(w, [step] + rest) && RunSteps(w, [step] + rest) == RunSteps(Next(w, step), rest)
  {
    assert ([step] + rest)[0] == step && ([step] + rest)[1..] == rest;
  }

  function Configured(limit: nat, agent: string): World {
    World(Integration(true, false, limit, map[], map[], map[], AlarmBudget.FRESH), map[], map[], {}, {}, map[], HubStale.START, agent)
  }

  // ---------------------------------------------------------------- with nothing in between, the parts are the operations

  lemma PartsMakeIngest(
    w: World, run: nat, call: nat, e: Event, id: string, tokenGranted: bool, error: Option<string>, now: int)
    requires run !in w.pending && call !in w.calls && call !in w.accepted
    requires id !in w.s.deliveries && id !in w.s.replies && id !in w.called
    ensures var recorded := Next(w, Record(e, id, tokenGranted));
            if Ingest(w.s, e, id, tokenGranted, error, now).1.Queued? then
              && Enabled(recorded, Begin(run, call, id))
              && var end := Next(recorded, Begin(run, call, id));
                 DispatchEnd(end.s, id, end.pending[run].copy, error, now) == Ingest(w.s, e, id, tokenGranted, error, now).0
                 && end.called == w.called && end.pending == w.pending[run := Dispatching(id, NewDelivery(e), call)]
            else recorded == w
  {
    assert w.called + {id} - {id} == w.called;
  }

  lemma PartsMakeRead(w: World, run: nat, id: string, caller: Caller, now: int)
    requires run !in w.pending && id in w.s.deliveries && !w.s.deliveries[id].toAgent && caller.Named?
    requires caller.addr != w.s.deliveries[id].targetAddr
    ensures Next(Next(w, BeginRead(run, id)), EndRead(run, caller.member, now)) == w.(s := ReadCall(w.s, id, caller, now).0)
  {
    assert w.pending[run := Reading(id, w.s.deliveries[id])] - {run} == w.pending;
  }

  lemma PartsMakeHandled(w: World, run: nat, id: string, caller: Caller, now: int)
    requires run !in w.pending && id in w.s.deliveries
    ensures Next(Next(w, BeginHandled(run, id)), EndHandled(run, Owns(w.s.deliveries[id], caller), now))
            == w.(s := HandledCall(w.s, id, caller, now).0)
  {
    assert w.pending[run := Handling(id, w.s.deliveries[id])] - {run} == w.pending;
  }

  /** Its recording and its post together store what the operation stores. */
  lemma CheckThenPost(s: Integration, r: ReplyRequest, error: Option<string>, now: int)
    requires r.caller.Named? && r.id in s.deliveries && r.id !in s.replies
    ensures var p := Checking(r.id, s.deliveries[r.id], r.caller.addr, r.message);
            var p' := Posting(r.id, RepliedTo(p.copy), NewReply(p.caller, p.message, now), true);
            PostDone(Checked(s, p, now), p', error, now) == ChatReply(s, r.id, r.caller.addr, r.message, error, now)
  {
    var d := s.deliveries[r.id];
    assert HandledAt(RepliedTo(d), now) == HandledAt(d, now);
  }

  lemma BegunThenChecked(w: World, run: nat, id: string, caller: string, message: string, allowed: bool, now: int)
    requires run !in w.pending && MayReply(w.s, id, caller)
    ensures var p := Checking(id, w.s.deliveries[id], caller, message);
            Next(Next(w, BeginReply(run, id, caller, message)), EndCheck(run, allowed, now)) ==
            if allowed then w.(s := Checked(w.s, p, now),
                               pending := w.pending[run := Posting(id, RepliedTo(p.copy), NewReply(caller, message, now), true)])
            else w
  {
    var p := Checking(id, w.s.deliveries[id], caller, message);
    assert w.pending[run := p] - {run} == w.pending;
    assert w.pending[run := p][run := Posting(id, RepliedTo(p.copy), NewReply(caller, message, now), true)]
           == w.pending[run := Posting(id, RepliedTo(p.copy), NewReply(caller, message, now), true)];
  }

  lemma PostOver(w: World, run: nat, s: Integration, p: Underway, error: Option<string>, now: int)
    requires run !in w.pending && p.Posting?
    ensures var begun := w.(s := s, pending := w.pending[run := p]);
            Enabled(begun, EndPost(run, error, now))
            && Next(begun, EndPost(run, error, now)) == w.(s := PostDone(s, p, error, now))
  {
    assert w.pending[run := p] - {run} == w.pending;
  }

  /** Recorded and posted with nothing in between. */
  lemma ReplyOver(w: World, run: nat, r: ReplyRequest, error: Option<string>, now: int)
    requires run !in w.pending && r.caller.Named? && MayReply(w.s, r.id, r.caller.addr)
    ensures var checked := Next(Next(w, BeginReply(run, r.id, r.caller.addr, r.message)), EndCheck(run, true, now));
            && Enabled(checked, EndPost(run, error, now))
            && Next(checked, EndPost(run, error, now)) == w.(s := ChatReply(w.s, r.id, r.caller.addr, r.message, error, now))
  {
    var checking := Checking(r.id, w.s.deliveries[r.id], r.caller.addr, r.message);
    BegunThenChecked(w, run, r.id, r.caller.addr, r.message, true, now);
    CheckThenPost(w.s, r, error, now);
    PostOver(w, run, Checked(w.s, checking, now),
             Posting(r.id, RepliedTo(checking.copy), NewReply(r.caller.addr, r.message, now), true), error, now);
  }

  lemma PartsMakeReply(w: World, run: nat, r: ReplyRequest, canReply: bool, error: Option<string>, now: int)
    requires run !in w.pending && r.caller.Named? && MayReply(w.s, r.id, r.caller.addr)
    requires w.s.deliveries[r.id].conversation == r.conversation
    ensures var begun := Next(w, BeginReply(run, r.id, r.caller.addr, r.message));
            var checked := Next(begun, EndCheck(run, Owns(w.s.deliveries[r.id], r.caller) && canReply, now));
            if ReplyRefusal(w.s, r, true, canReply).None?
            then Enabled(checked, EndPost(run, error, now))
                 && Next(checked, EndPost(run, error, now)) == w.(s := ReplyCall(w.s, r, true, canReply, error, now).0)
            else checked == w
  {
    if ReplyRefusal(w.s, r, true, canReply).None? {
      ReplyOver(w, run, r, error, now);
    } else {
      BegunThenChecked(w, run, r.id, r.caller.addr, r.message, false, now);
    }
  }

  // ---------------------------------------------------------------- what every step keeps

  ghost predicate Sound(w: World) {
    && IntegrationLaws.Quiet(w.s)
    && (forall run :: run in w.pending ==> PendingSound(w.s, w.pending[run]))
    && (forall call :: call in w.calls ==> w.calls[call].id in w.s.deliveries)
    && w.called <= w.s.deliveries.Keys
    && (forall list, id :: list in w.listed && id in w.listed[list].replies ==> id in w.s.deliveries)
    && HubStale.Carried(w.hub)
  }

  predicate PendingSound(s: Integration, p: Underway) {
    && p.id in s.deliveries && IntegrationLaws.QuietDelivery(p.copy)
    && (p.Dispatching? ==> p.copy.settledAt.None?)
    && (p.Reading? ==> !p.copy.toAgent)
    && (p.Posting? ==> p.reply.postedAt.None?)
  }

  /** Quiet, and the same but for one delivery and its reply. */
  ghost predicate QuietEnd(s: Integration, s': Integration, id: string) {
    && IntegrationLaws.Quiet(s') && s'.deliveries.Keys == s.deliveries.Keys && s.replies.Keys <= s'.replies.Keys
    && (forall other :: other in s.deliveries && other != id ==> s'.deliveries[other] == s.deliveries[other])
  }

  lemma WrittenBack(s: Integration, p: Underway, d: Delivery, s': Integration)
    requires IntegrationLaws.Quiet(s) && p.id in s.deliveries && IntegrationLaws.QuietDelivery(d)
    requires s'.deliveries == s.deliveries[p.id := d] && s'.replies == s.replies
    ensures QuietEnd(s, s', p.id)
  {
  }

  lemma ReplyWrittenBack(s: Integration, p: Underway, reply: Reply, s': Integration)
    requires IntegrationLaws.Quiet(s) && p.id in s.deliveries && (reply.postedAt.Some? ==> reply.nextAttemptAt.None?)
    requires s'.deliveries.Keys == s.deliveries.Keys && s'.replies == s.replies[p.id := reply]
    requires IntegrationLaws.QuietDelivery(s'.deliveries[p.id])
    requires forall other :: other in s.deliveries && other != p.id ==> s'.deliveries[other] == s.deliveries[other]
    ensures QuietEnd(s, s', p.id)
  {
  }

  lemma DispatchEndQuiet(s: Integration, p: Underway, error: Option<string>, now: int)
    requires IntegrationLaws.Quiet(s) && PendingSound(s, p) && p.Dispatching?
    ensures QuietEnd(s, DispatchEnd(s, p.id, p.copy, error, now), p.id)
  {
    var s' := DispatchEnd(s, p.id, p.copy, error, now);
    WrittenBack(s, p, s'.deliveries[p.id], s');
  }

  lemma ReadEndQuiet(s: Integration, p: Underway, now: int)
    requires IntegrationLaws.Quiet(s) && PendingSound(s, p)
    ensures QuietEnd(s, ReadEnd(s, p.id, p.copy, now), p.id)
  {
    var s' := ReadEnd(s, p.id, p.copy, now);
    if s' != s {
      WrittenBack(s, p, s'.deliveries[p.id], s');
    }
  }

  lemma HandledEndQuiet(s: Integration, p: Underway, now: int)
    requires IntegrationLaws.Quiet(s) && PendingSound(s, p)
    ensures QuietEnd(s, HandledEnd(s, p.id, p.copy, now).0, p.id)
  {
    if p.copy.settledAt.None? {
      WrittenBack(s, p, HandledAt(p.copy, now), HandledEnd(s, p.id, p.copy, now).0);
    }
  }

  lemma CheckedQuiet(s: Integration, p: Underway, now: int)
    requires IntegrationLaws.Quiet(s) && PendingSound(s, p) && p.Checking?
    ensures QuietEnd(s, Checked(s, p, now), p.id)
  {
    ReplyWrittenBack(s, p, NewReply(p.caller, p.message, now), Checked(s, p, now));
  }

  lemma PostDoneQuiet(s: Integration, p: Underway, error: Option<string>, now: int)
    requires IntegrationLaws.Quiet(s) && PendingSound(s, p) && p.Posting?
    ensures QuietEnd(s, PostDone(s, p, error, now), p.id)
  {
    var s' := PostDone(s, p, error, now);
    ReplyWrittenBack(s, p, s'.replies[p.id], s');
  }

  lemma EndedQuiet(s: Integration, p: Underway, step: Step)
    requires IntegrationLaws.Quiet(s) && PendingSound(s, p) && Fits(p, step)
    ensures QuietEnd(s, Ended(s, p, step), p.id)
  {
    match step
    case End(_, error, now) => DispatchEndQuiet(s, p, error, now);
    case EndRead(_, _, now) => ReadEndQuiet(s, p, now);
    case EndHandled(_, _, now) => HandledEndQuiet(s, p, now);
    case EndCheck(_, _, now) => CheckedQuiet(s, p, now);
    case EndPost(_, error, now) => PostDoneQuiet(s, p, error, now);
  }

  /** A run that ends rewrites at most its own delivery and reply. */
  lemma EndQuiet(w: World, step: Step)
    requires Sound(w) && Enabled(w, step) && Ends(step)
    ensures QuietEnd(w.s, Next(w, step).s, w.pending[step.run].id)
  {
    EndedQuiet(w.s, w.pending[step.run], step);
  }

  /** Every other step keeps settled what is settled. */
  lemma OtherQuiet(w: World, step: Step)
    requires Sound(w) && Enabled(w, step) && !Ends(step)
    ensures IntegrationLaws.Quiet(Next(w, step).s) && IntegrationLaws.Forward(w.s, Next(w, step).s)
  {
    if step.Do? {
      IntegrationLaws.StepQuiet(w.s, step.op);
    }
  }

  lemma HubStep(w: World, step: Step)
    requires HubStale.Carried(w.hub) && Enabled(w, step)
    ensures HubStale.Carried(HubNext(w, step))
  {
    var there := AtTheHub(w, step);
    if there.Some? {
      HubStale.StepCarried(w.hub, there.value);
    }
  }

  lemma DeliveriesStay(w: World, step: Step)
    requires Sound(w) && Enabled(w, step)
    ensures IntegrationLaws.Quiet(Next(w, step).s) && w.s.deliveries.Keys <= Next(w, step).s.deliveries.Keys
  {
    if Ends(step) {
      EndQuiet(w, step);
    } else {
      OtherQuiet(w, step);
    }
  }

  /** The same run later: unchanged, or its reply recorded. */
  predicate Continues(p: Underway, p': Underway) {
    || p' == p
    || (p.Checking? && p'.Posting? && p'.id == p.id && p'.copy == RepliedTo(p.copy) && p'.reply.postedAt.None?)
  }

  /** The listing has the reply, and the retry will post it. */
  predicate ListsReply(l: RetryList, id: string, reply: Reply) {
    id in l.replies && l.replies[id] == reply && Retries(reply, l.now)
  }

  /** A run that begins holds the stored delivery. */
  predicate Starts(w: World, p: Underway) {
    && p.id in w.s.deliveries && p.copy == w.s.deliveries[p.id]
    && (p.Dispatching? ==> p.id in w.called && Dispatchable(w.s, p.id))
    && (p.Reading? ==> !p.copy.toAgent)
    && (p.Checking? ==> p.id !in w.s.replies)
    && (p.Posting? ==> exists list :: list in w.listed && ListsReply(w.listed[list], p.id, p.reply))
  }

  lemma PendingAfter(w: World, step: Step, run: nat)
    requires Enabled(w, step) && run in Next(w, step).pending
    ensures if run in w.pending then Continues(w.pending[run], Next(w, step).pending[run]) else Starts(w, Next(w, step).pending[run])
  {
  }

  lemma PendingStaysSound(w: World, step: Step)
    requires Sound(w) && Enabled(w, step)
    ensures forall run :: run in Next(w, step).pending ==> PendingSound(Next(w, step).s, Next(w, step).pending[run])
  {
    var w' := Next(w, step);
    DeliveriesStay(w, step);
    forall run | run in w'.pending ensures PendingSound(w'.s, w'.pending[run]) {
      PendingAfter(w, step, run);
      assert run in w.pending ==> PendingSound(w.s, w.pending[run]);
    }
  }

  lemma ListsStaySound(w: World, step: Step)
    requires Sound(w) && Enabled(w, step)
    ensures var w' := Next(w, step);
            && w'.called <= w'.s.deliveries.Keys
            && (forall list, id :: list in w'.listed && id in w'.listed[list].replies ==> id in w'.s.deliveries)
            && (forall call :: call in w'.calls ==> w'.calls[call].id in w'.s.deliveries)
  {
    DeliveriesStay(w, step);
  }

  lemma StepSound(w: World, step: Step)
    requires Sound(w) && Enabled(w, step)
    ensures Sound(Next(w, step))
  {
    HubStep(w, step);
    DeliveriesStay(w, step);
    PendingStaysSound(w, step);
    ListsStaySound(w, step);
  }

  lemma {:induction false} RunSound(w: World, steps: seq<Step>)
    requires Sound(w) && EnabledRun(w, steps)
    ensures Sound(RunSteps(w, steps))
    decreases |steps|
  {
    if steps != [] {
      StepSound(w, steps[0]);
      RunSound(Next(w, steps[0]), steps[1..]);
    }
  }

  // ---------------------------------------------------------------- and the hub, if what happens there is safe

  /** Dispatch runs of the hub record safe deaths only, and its renames collide nowhere. */
  ghost predicate SafeRun(w: World, steps: seq<Step>)
    requires EnabledRun(w, steps)
    decreases |steps|
  {
    steps == [] || ((steps[0].AtHub? ==> HubStale.Enabled(w.hub, steps[0].step)) && SafeRun(Next(w, steps[0]), steps[1..]))
  }

  /** Whatever the integration does, late calls and drains included, the hub's invariant holds. */
  lemma {:induction false} RunKeepsHub(w: World, steps: seq<Step>)
    requires EnabledRun(w, steps) && SafeRun(w, steps) && HubStale.Sound(w.hub)
    ensures HubStale.Sound(RunSteps(w, steps).hub)
    decreases |steps|
  {
    if steps != [] {
      var there := AtTheHub(w, steps[0]);
      if there.Some? {
        HubStale.StepSound(w.hub, there.value);
      }
      RunKeepsHub(Next(w, steps[0]), steps[1..]);
    }
  }
}
