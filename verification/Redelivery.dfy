/**
 When a settlement stands, and when a settled delivery can reach its agent again, with
 dispatches, reads, replies and settlements under way at any time
 (src/do/integration.ts), and calls and dispatch runs on old listings at the hub
 (src/do/host-hub.ts).
 */
module Redelivery {
  import opened Common
  import opened IntegrationModel
  import opened Awaits
  import IntegrationLaws
  import HubModel
  import HubInvariant
  import HubListings
  import HubRename
  import HubRuns
  import HubStale
  import Storage

  // ---------------------------------------------------------------- when a settlement stands

  predicate Settled(w: World, id: string) {
    id in w.s.deliveries && w.s.deliveries[id].settledAt.Some?
  }

  /** The run may write back an unsettled copy; a read writes only when it is the first. */
  predicate Unsettles(p: Underway) {
    match p
    case Dispatching(_, _, _) => true
    case Reading(_, copy) => copy.settledAt.None? && copy.readAt.None?
    case Checking(_, copy, _, _) => copy.settledAt.None?
    case Handling(_, _) => false
    case Posting(_, _, _, _) => false
  }

  ghost predicate InFlight(w: World, id: string) {
    exists run :: run in w.pending && w.pending[run].id == id && Unsettles(w.pending[run])
  }

  lemma EndedKeepsSettled(s: Integration, p: Underway, step: Step)
    requires IntegrationLaws.Quiet(s) && PendingSound(s, p) && Fits(p, step) && !Unsettles(p) && s.deliveries[p.id].settledAt.Some?
    ensures var d := Ended(s, p, step).deliveries; p.id in d && d[p.id].settledAt.Some?
  {
  }

  lemma EndKeepsSettled(w: World, step: Step, id: string)
    requires Sound(w) && Enabled(w, step) && Ends(step) && Settled(w, id) && !InFlight(w, id)
    ensures var d := Ended(w.s, w.pending[step.run], step).deliveries; id in d && d[id].settledAt.Some?
  {
    var p := w.pending[step.run];
    assert PendingSound(w.s, p);
    EndedQuiet(w.s, p, step);
    if p.id == id {
      assert !Unsettles(p);
      EndedKeepsSettled(w.s, p, step);
    }
  }

  lemma StepKeepsSettled(w: World, step: Step, id: string)
    requires Sound(w) && Enabled(w, step) && Settled(w, id) && !InFlight(w, id)
    ensures Settled(Next(w, step), id) && !InFlight(Next(w, step), id)
  {
    if Ends(step) {
      EndKeepsSettled(w, step, id);
    } else {
      OtherQuiet(w, step);
    }
    var w' := Next(w, step);
    forall run | run in w'.pending && w'.pending[run].id == id ensures !Unsettles(w'.pending[run]) {
      PendingAfter(w, step, run);
      assert run in w.pending && w.pending[run].id == id ==> !Unsettles(w.pending[run]);
    }
  }

  lemma {:induction false} SettlementStands(w: World, steps: seq<Step>, id: string)
    requires Sound(w) && EnabledRun(w, steps) && Settled(w, id) && !InFlight(w, id)
    ensures Settled(RunSteps(w, steps), id)
    decreases |steps|
  {
    if steps != [] {
      StepKeepsSettled(w, steps[0], id);
      StepSound(w, steps[0]);
      SettlementStands(Next(w, steps[0]), steps[1..], id);
    }
  }

  /** The end of a run that holds an unsettled copy. */
  function LateEnd(run: nat, p: Underway): Step {
    match p
    case Reading(_, _) => EndRead(run, true, 0)
    case Checking(_, _, _, _) => EndCheck(run, true, 0)
    case _ => End(run, Some("no answer"), 0)
  }

  lemma LateEndUnsettles(w: World, run: nat)
    requires Sound(w) && run in w.pending && Unsettles(w.pending[run])
    ensures Enabled(w, LateEnd(run, w.pending[run]))
    ensures !Settled(Next(w, LateEnd(run, w.pending[run])), w.pending[run].id)
  {
    assert PendingSound(w.s, w.pending[run]);
  }

  /**
   A stored settlement survives every continuation, whatever comes in whatever order,
   exactly when nothing that holds an unsettled copy of the delivery is under way when it
   is stored: no dispatch, no first read through a room, no reply not yet recorded.
   */
  lemma SettlementSurvivesExact(w: World, id: string)
    requires Sound(w) && Settled(w, id)
    ensures (forall steps :: EnabledRun(w, steps) ==> Settled(RunSteps(w, steps), id)) <==> !InFlight(w, id)
  {
    if run :| run in w.pending && w.pending[run].id == id && Unsettles(w.pending[run]) {
      LateEndUnsettles(w, run);
      FirstThenRest(w, LateEnd(run, w.pending[run]), []);
    } else {
      forall steps | EnabledRun(w, steps) ensures Settled(RunSteps(w, steps), id) {
        SettlementStands(w, steps, id);
      }
    }
  }

  // ---------------------------------------------------------------- it does happen

  /** The message arrives and its dispatch awaits the hub, which queues it. */
  function Dispatch(e: Event, id: string, agent: string): seq<Step> {
    [Record(e, id, true)] + ([Begin(0, 0, id)] + ([Reach(0, agent, None, true, 0)] + ([Over(0)] + [])))
  }

  /** The three states it goes through. */
  function Recorded1(e: Event, id: string, limit: nat, agent: string): World {
    Configured(limit, agent).(s := Recorded(Configured(limit, agent).s, e, id, true), called := {id})
  }

  function Begun2(e: Event, id: string, limit: nat, agent: string): World {
    Recorded1(e, id, limit, agent).(
      pending := map[0 := Dispatching(id, NewDelivery(e), 0)], calls := map[0 := Call(id, NewDelivery(e))], called := {})
  }

  ghost function Queued3(e: Event, id: string, limit: nat, agent: string): World {
    Begun2(e, id, limit, agent).(
      calls := map[], accepted := {0}, hub := HubStale.Next(HubStale.START, HubStale.Do(FirstQueueing(e, id, agent))))
  }

  lemma RecordedThenBegun(e: Event, id: string, limit: nat, agent: string)
    ensures Next(Configured(limit, agent), Record(e, id, true)) == Recorded1(e, id, limit, agent)
    ensures Enabled(Recorded1(e, id, limit, agent), Begin(0, 0, id))
    ensures Next(Recorded1(e, id, limit, agent), Begin(0, 0, id)) == Begun2(e, id, limit, agent)
  {
    assert {id} - {id} == {};
  }

  lemma ReachedThenOver(e: Event, id: string, limit: nat, agent: string)
    ensures var w := Begun2(e, id, limit, agent);
            && Enabled(w, Reach(0, agent, None, true, 0))
            && Next(Next(w, Reach(0, agent, None, true, 0)), Over(0)) == Queued3(e, id, limit, agent)
  {
    var w1 := Next(Begun2(e, id, limit, agent), Reach(0, agent, None, true, 0));
    assert w1.accepted == {0} && w1.calls - {0} == map[];
  }

  lemma DispatchUnderway(e: Event, id: string, limit: nat, agent: string)
    ensures EnabledRun(Configured(limit, agent), Dispatch(e, id, agent))
    ensures RunSteps(Configured(limit, agent), Dispatch(e, id, agent)) == Queued3(e, id, limit, agent)
    ensures Queued3(e, id, limit, agent).s.deliveries == map[id := NewDelivery(e)]
  {
    var w2 := Begun2(e, id, limit, agent);
    var last := [Over(0)] + [];
    RecordedThenBegun(e, id, limit, agent);
    ReachedThenOver(e, id, limit, agent);
    FirstThenRest(Next(w2, Reach(0, agent, None, true, 0)), Over(0), []);
    FirstThenRest(w2, Reach(0, agent, None, true, 0), last);
    FirstThenRest(Recorded1(e, id, limit, agent), Begin(0, 0, id), [Reach(0, agent, None, true, 0)] + last);
    FirstThenRest(Configured(limit, agent), Record(e, id, true), [Begin(0, 0, id)] + ([Reach(0, agent, None, true, 0)] + last));
  }

  function FirstQueueing(e: Event, id: string, agent: string): HubRuns.HubOp {
    HubRuns.DoQueue(InputOf(Call(id, NewDelivery(e)), agent, None, 0), true, 0)
  }

  /** It is marked handled before the hub's answer is back. */
  function LateEnding(id: string): seq<Step> {
    [Do(DoHandled(id, 1))] + ([End(0, None, 2)] + [])
  }

  lemma EndUnsettles(w: World, id: string)
    requires 0 in w.pending && w.pending[0].Dispatching? && w.pending[0].id == id && w.pending[0].call in w.accepted
    requires var copy := w.pending[0].copy;
             copy.settledAt.None? && copy.readAt.None? && copy.attempts == 0 && copy.injectedVia.None?
    ensures var d := Next(w, End(0, None, 2)).s.deliveries;
            id in d && d[id].settledAt.None? && d[id].nextAttemptAt == Some(2 + BASE_REDELIVERY_MS)
  {
    IntegrationLaws.RedeliveryDelayShape(Next(w, End(0, None, 2)).s.deliveries[id]);
  }

  lemma LateEndingFrom(w: World, id: string)
    requires 0 in w.pending && w.pending[0].Dispatching? && w.pending[0].id == id && id in w.s.deliveries
    requires w.pending[0].call in w.accepted && w.s.deliveries[id].settledAt.None?
    requires var copy := w.pending[0].copy;
             copy.settledAt.None? && copy.readAt.None? && copy.attempts == 0 && copy.injectedVia.None?
    ensures Settled(Next(w, Do(DoHandled(id, 1))), id)
    ensures EnabledRun(w, LateEnding(id))
    ensures var d := RunSteps(w, LateEnding(id)).s.deliveries;
            id in d && d[id].settledAt.None? && d[id].nextAttemptAt == Some(2 + BASE_REDELIVERY_MS)
  {
    var w1 := Next(w, Do(DoHandled(id, 1)));
    EndUnsettles(w1, id);
    FirstThenRest(w1, End(0, None, 2), []);
    FirstThenRest(w, Do(DoHandled(id, 1)), [End(0, None, 2)] + []);
  }

  /** A handled delivery is unsettled again, with a redelivery due. */
  lemma LateDispatchUnsettles(e: Event, id: string, limit: nat, agent: string)
    ensures EnabledRun(Configured(limit, agent), Dispatch(e, id, agent))
    ensures var w := RunSteps(Configured(limit, agent), Dispatch(e, id, agent));
            && Settled(Next(w, Do(DoHandled(id, 1))), id)
            && EnabledRun(w, LateEnding(id))
            && var d := RunSteps(w, LateEnding(id)).s.deliveries;
               id in d && d[id].settledAt.None? && d[id].nextAttemptAt == Some(2 + BASE_REDELIVERY_MS)
  {
    DispatchUnderway(e, id, limit, agent);
    LateEndingFrom(RunSteps(Configured(limit, agent), Dispatch(e, id, agent)), id);
  }

  /** A member's read of a dispatched room message awaits the room while an operator marks it handled. */
  function LateReading(id: string): seq<Step> {
    [BeginRead(0, id)] + ([Do(DoHandled(id, 2))] + ([EndRead(0, true, 3)] + []))
  }

  lemma LateReadFrom(w: World, id: string)
    requires w.pending == map[] && id in w.s.deliveries
    requires var d := w.s.deliveries[id]; d.readAt.None? && d.settledAt.None? && d.attempts == 1 && !d.toAgent
    ensures EnabledRun(w, LateReading(id))
    ensures var w' := RunSteps(w, LateReading(id));
            && w'.pending == map[] && w'.called == w.called
            && id in w'.s.deliveries && w'.s.deliveries[id].settledAt.None?
            && w'.s.deliveries[id].nextAttemptAt == Some(3 + READ_REDELIVERY_MULTIPLIER * BASE_REDELIVERY_MS)
  {
    var w2 := Next(w, BeginRead(0, id));
    var w3 := Next(w2, Do(DoHandled(id, 2)));
    var last := [EndRead(0, true, 3)] + [];
    LateReadEnds(w3, id);
    FirstThenRest(w3, EndRead(0, true, 3), []);
    FirstThenRest(w2, Do(DoHandled(id, 2)), last);
    FirstThenRest(w, BeginRead(0, id), [Do(DoHandled(id, 2))] + last);
  }

  lemma DispatchEnded(e: Event, id: string, limit: nat, agent: string)
    ensures EnabledRun(Configured(limit, agent), Dispatch(e, id, agent))
    ensures var w := RunSteps(Configured(limit, agent), Dispatch(e, id, agent));
            && Enabled(w, End(0, None, 1))
            && var w1 := Next(w, End(0, None, 1));
               && w1.pending == map[] && w1.called == {} && id in w1.s.deliveries && w1.s.replies == map[]
               && var d := w1.s.deliveries[id];
                  && d.readAt.None? && d.settledAt.None? && d.attempts == 1 && d.toAgent == e.toAgent && d.targetAddr == e.targetAddr
                  && d.nextAttemptAt == Some(1 + BASE_REDELIVERY_MS) && d.status == IntegrationModel.Dispatched
  {
    DispatchUnderway(e, id, limit, agent);
    var w := RunSteps(Configured(limit, agent), Dispatch(e, id, agent));
    IntegrationLaws.RedeliveryDelayShape(Next(w, End(0, None, 1)).s.deliveries[id]);
  }

  /** With no dispatch anywhere, the read unsettles the delivery, and a redelivery is due. */
  lemma LateReadUnsettles(e: Event, id: string, limit: nat, agent: string)
    requires !e.toAgent
    ensures EnabledRun(Configured(limit, agent), Dispatch(e, id, agent))
    ensures var w := RunSteps(Configured(limit, agent), Dispatch(e, id, agent));
            && Enabled(w, End(0, None, 1)) && EnabledRun(Next(w, End(0, None, 1)), LateReading(id))
            && var w' := RunSteps(Next(w, End(0, None, 1)), LateReading(id));
               && w'.pending == map[] && w'.called == {}
               && id in w'.s.deliveries && w'.s.deliveries[id].settledAt.None?
               && w'.s.deliveries[id].nextAttemptAt == Some(3 + READ_REDELIVERY_MULTIPLIER * BASE_REDELIVERY_MS)
  {
    DispatchEnded(e, id, limit, agent);
    LateReadFrom(Next(RunSteps(Configured(limit, agent), Dispatch(e, id, agent)), End(0, None, 1)), id);
  }

  lemma LateReadEnds(w: World, id: string)
    requires 0 in w.pending && w.pending.Keys == {0} && w.pending[0].Reading? && w.pending[0].id == id
    requires var copy := w.pending[0].copy; copy.readAt.None? && copy.settledAt.None? && copy.attempts == 1 && !copy.toAgent
    ensures var w' := Next(w, EndRead(0, true, 3));
            && w'.pending == map[] && w'.called == w.called
            && id in w'.s.deliveries && w'.s.deliveries[id].settledAt.None?
            && w'.s.deliveries[id].nextAttemptAt == Some(3 + READ_REDELIVERY_MULTIPLIER * BASE_REDELIVERY_MS)
  {
    IntegrationLaws.RedeliveryDelayShape(Next(w, EndRead(0, true, 3)).s.deliveries[id]);
  }

  /** The target's answer awaits the connector while an operator marks the message handled, and then cannot be posted. */
  function LateReply(id: string, caller: string): seq<Step> {
    [BeginReply(0, id, caller, "done")] + ([Do(DoHandled(id, 2))] + ([EndCheck(0, true, 3)] + ([EndPost(0, Some("offline"), 4)] + [])))
  }

  lemma LateReplyEnds(w: World, id: string)
    requires 0 in w.pending && w.pending[0].Checking? && w.pending[0].id == id && w.pending[0].copy.settledAt.None?
    ensures var steps := [EndCheck(0, true, 3)] + ([EndPost(0, Some("offline"), 4)] + []);
            && EnabledRun(w, steps)
            && var d := RunSteps(w, steps).s.deliveries;
               id in d && d[id].settledAt.None? && d[id].nextAttemptAt.None? && d[id].status == Replied
  {
    var w1 := Next(w, EndCheck(0, true, 3));
    FirstThenRest(w1, EndPost(0, Some("offline"), 4), []);
    FirstThenRest(w, EndCheck(0, true, 3), [EndPost(0, Some("offline"), 4)] + []);
  }

  lemma LateReplyFrom(w: World, id: string, caller: string)
    requires w.pending == map[] && id in w.s.deliveries && id !in w.s.replies
    requires w.s.deliveries[id].settledAt.None? && w.s.deliveries[id].targetAddr == caller
    ensures EnabledRun(w, LateReply(id, caller))
    ensures var d := RunSteps(w, LateReply(id, caller)).s.deliveries;
            id in d && d[id].settledAt.None? && d[id].nextAttemptAt.None? && d[id].status == Replied
  {
    var w1 := Next(w, BeginReply(0, id, caller, "done"));
    var last := [EndCheck(0, true, 3)] + ([EndPost(0, Some("offline"), 4)] + []);
    LateReplyEnds(Next(w1, Do(DoHandled(id, 2))), id);
    FirstThenRest(w1, Do(DoHandled(id, 2)), last);
    FirstThenRest(w, BeginReply(0, id, caller, "done"), [Do(DoHandled(id, 2))] + last);
  }

  /** Whatever the target is, the delivery is unsettled again, and nothing is due to wake it. */
  lemma LateReplyUnsettles(e: Event, id: string, limit: nat, agent: string)
    ensures EnabledRun(Configured(limit, agent), Dispatch(e, id, agent))
    ensures var w := RunSteps(Configured(limit, agent), Dispatch(e, id, agent));
            && Enabled(w, End(0, None, 1)) && EnabledRun(Next(w, End(0, None, 1)), LateReply(id, e.targetAddr))
            && var d := RunSteps(Next(w, End(0, None, 1)), LateReply(id, e.targetAddr)).s.deliveries;
               id in d && d[id].settledAt.None? && d[id].nextAttemptAt.None? && d[id].status == Replied
  {
    DispatchEnded(e, id, limit, agent);
    LateReplyFrom(Next(RunSteps(Configured(limit, agent), Dispatch(e, id, agent)), End(0, None, 1)), id, e.targetAddr);
  }

  // ---------------------------------------------------------------- when it can reach its agent again

  /** Operations that dispatch are taken apart into their steps, so that each effect at the hub shows. */
  predicate InParts(step: Step) {
    step.Do? ==> !step.op.DoIngest? && !step.op.DoAlarm? && !step.op.DoResume? && !step.op.DoRequeue?
  }

  predicate AllInParts(steps: seq<Step>) {
    steps == [] || (InParts(steps[0]) && AllInParts(steps[1..]))
  }

  /** The hub has the message queued for somebody. */
  ghost predicate InQueue(hub: HubModel.HubState, id: string) {
    || (exists k :: k in hub.queue && hub.queue[k].id == id)
    || (exists m :: m in hub.markers && m.id == id && hub.markers[m].Queued?)
  }

  /** Every recipient of the message at the hub is done with it. */
  ghost predicate AllInjected(hub: HubModel.HubState, id: string) {
    forall m :: m in hub.markers && m.id == id ==> hub.markers[m].Injected?
  }

  /** A dispatch run of the hub can record the copy's death: it was listed expired, or is pinned to a connection that can be revoked. */
  predicate CanDie(now: int, item: HubModel.Item) {
    HubModel.Expired(item, now) || item.connectionId.Some?
  }

  /** The hub is done with the message: it has no entry of it, no marker but injected ones, and no dispatch run that can bury a copy of it. */
  ghost predicate HubDone(c: HubStale.Stale, id: string) {
    && AllInjected(c.hub, id)
    && (forall k :: k in c.hub.queue ==> c.hub.queue[k].id != id)
    && (forall run, k :: run in c.runs && k in c.runs[run].items && c.runs[run].items[k].id == id ==>
          !CanDie(c.runs[run].now, c.runs[run].items[k]))
  }

  /** Some continuation queues the message at the hub. */
  ghost predicate CanQueue(w: World, id: string) {
    exists steps :: Queues(w, steps, id)
  }

  ghost predicate Queues(w: World, steps: seq<Step>, id: string) {
    EnabledRun(w, steps) && AllInParts(steps) && InQueue(RunSteps(w, steps).hub.hub, id)
  }

  /** A call on its way can queue the message: as a redelivery, for an agent the hub has no marker of, or for members of a room. */
  predicate CallWakes(w: World, c: Call) {
    !c.copy.toAgent || c.copy.attempts > 0 || HubModel.MarkerKey(c.id, w.agent) !in w.hub.hub.markers
  }

  /**
   A run can bring the message back into the queue: a dispatch unless its copy is read
   and held by the session, a first read, or a reply to what has not been read; and any of
   those that unsettle where a dispatch has already been called for.
   */
  predicate Wakes(w: World, p: Underway) {
    && Unsettles(p)
    && match p
       case Dispatching(id, copy, _) => !SessionHeld(copy) || copy.readAt.None? || id in w.called
       case Checking(id, copy, _, _) => copy.readAt.None? || id in w.called
       case _ => true
  }

  ghost predicate Waking(w: World, id: string) {
    || (exists run :: run in w.pending && w.pending[run].id == id && Wakes(w, w.pending[run]))
    || (exists call :: call in w.calls && w.calls[call].id == id && CallWakes(w, w.calls[call]))
  }

  // ---------------------------------------------------------------- nothing wakes what is at rest

  /** Settled, or read with nothing due: no scan finds it and no read puts it on the clock again. */
  predicate Rests(d: Delivery) {
    d.settledAt.Some? || (d.readAt.Some? && d.nextAttemptAt.None?)
  }

  ghost predicate Asleep(w: World, id: string) {
    && id in w.s.deliveries && Rests(w.s.deliveries[id])
    && (w.s.deliveries[id].settledAt.None? ==> id !in w.called)
    && HubDone(w.hub, id) && !Waking(w, id)
  }

  lemma ReplyRests(s: Integration, id: string, caller: string, message: string, error: Option<string>, now: int)
    requires id in s.deliveries && Rests(s.deliveries[id])
    ensures var d := ChatReply(s, id, caller, message, error, now).deliveries;
            id in d && Rests(d[id]) && (s.deliveries[id].settledAt.Some? ==> d[id].settledAt.Some?)
  {
  }

  lemma ArrivalRests(s: Integration, other: string, targetAddr: string, via: string, now: int, id: string)
    requires id in s.deliveries && Rests(s.deliveries[id])
    ensures var d := RecordInjection(s, other, targetAddr, via, now).deliveries;
            id in d && Rests(d[id]) && (s.deliveries[id].settledAt.Some? ==> d[id].settledAt.Some?)
  {
  }

  lemma DoRests(s: Integration, op: Op, id: string)
    requires InParts(Do(op)) && id in s.deliveries && Rests(s.deliveries[id])
    ensures var s' := Apply(s, op);
            && id in s'.deliveries && Rests(s'.deliveries[id])
            && (s.deliveries[id].settledAt.Some? ==> s'.deliveries[id].settledAt.Some?)
  {
    match op
    case DoReply(other, caller, message, error, now) =>
      if other == id {
        ReplyRests(s, id, caller, message, error, now);
      } else {
        assert ChatReply(s, other, caller, message, error, now).deliveries.Keys == s.deliveries.Keys;
      }
    case DoInjection(other, targetAddr, via, now) => ArrivalRests(s, other, targetAddr, via, now, id);
    case DoRead(_, _) =>
    case DoHandled(_, _) =>
    case DoSettleConversation(_, _) =>
    case DoWake(_, _) =>
    case DoPause(_) =>
  }

  lemma EndedRests(w: World, p: Underway, step: Step)
    requires IntegrationLaws.Quiet(w.s) && PendingSound(w.s, p) && Fits(p, step) && !Wakes(w, p)
    requires Rests(w.s.deliveries[p.id]) && (w.s.deliveries[p.id].settledAt.None? ==> p.id !in w.called)
    ensures var d := Ended(w.s, p, step).deliveries;
            p.id in d && Rests(d[p.id]) && (d[p.id].settledAt.None? ==> p.id !in w.called)
  {
    match step
    case End(_, error, now) =>
      assert Sent(p.copy, error, now).readAt == p.copy.readAt && SessionHeld(Sent(p.copy, error, now));
    case _ =>
  }

  /** The end of a run that does not wake it leaves it at rest; it may unsettle it only where no dispatch has been called for. */
  lemma EndRests(w: World, step: Step, id: string)
    requires Sound(w) && Enabled(w, step) && Ends(step) && Asleep(w, id)
    ensures var d := Next(w, step).s.deliveries;
            id in d && Rests(d[id]) && (d[id].settledAt.None? ==> id !in w.called)
  {
    EndQuiet(w, step);
    var p := w.pending[step.run];
    if p.id == id {
      assert PendingSound(w.s, p) && !Wakes(w, p);
      EndedRests(w, p, step);
    }
  }

  /** The hub stays done with the message, and forgets no marker of it. */
  ghost predicate StaysDone(s: HubModel.HubState, s': HubModel.HubState, id: string) {
    && AllInjected(s', id)
    && (forall k :: k in s'.queue ==> s'.queue[k].id != id)
    && (forall m :: m in s.markers && m.id == id ==> m in s'.markers)
  }

  lemma {:induction false} RenameLeavesDone(
    s: HubModel.HubState, listing: seq<HubModel.QueueKey>, renames: HubRename.Renames, slug: string, id: string)
    requires (forall k :: k in listing ==> k in s.queue) && AllInjected(s, id) && forall k :: k in s.queue ==> s.queue[k].id != id
    ensures StaysDone(s, HubRename.Rename(s, listing, renames, slug), id)
  {
    if listing != [] {
      assert listing[|listing| - 1] in listing;
      RenameLeavesDone(s, listing[..|listing| - 1], renames, slug, id);
    }
  }

  lemma NakLeavesDone(s: HubModel.HubState, r: Option<HubModel.MarkerKey>, code: string, retryable: bool, id: string)
    requires (r.Some? ==> HubModel.IsQueued(s, r.value)) && AllInjected(s, id) && forall k :: k in s.queue ==> s.queue[k].id != id
    ensures StaysDone(s, HubModel.Nak(s, r, code, retryable), id)
  {
  }

  lemma DispatchLeavesDone(s: HubModel.HubState, key: HubModel.QueueKey, item: HubModel.Item, env: HubModel.DispatchEnv, id: string)
    requires item.id != id && AllInjected(s, id) && forall k :: k in s.queue ==> s.queue[k].id != id
    ensures StaysDone(s, HubModel.DispatchEntry(s, key, item, env).0, id)
  {
  }

  lemma OtherOpLeavesDone(s: HubModel.HubState, op: HubRuns.HubOp, id: string, ledger: HubStale.Ledger)
    requires !op.DoRename? && !op.DoQueue? && HubRuns.Possible(s, op) && HubStale.Carries(s, ledger)
    requires AllInjected(s, id) && forall k :: k in s.queue ==> s.queue[k].id != id
    ensures StaysDone(s, HubRuns.Apply(s, op), id)
  {
    match op
    case DoNak(_, _, r, code, retryable) => NakLeavesDone(s, r, code, retryable, id);
    case DoDispatch(key, env) => DispatchLeavesDone(s, key, s.queue[key], env, id);
    case _ =>
  }

  lemma QueueLeavesDone(s: HubModel.HubState, input: HubModel.DeliveryInput, routable: bool, now: int, id: string)
    requires AllInjected(s, id) && forall k :: k in s.queue ==> s.queue[k].id != id
    requires input.id == id ==> !input.redelivery && HubModel.MarkerKey(id, input.agent) in s.markers
    ensures StaysDone(s, HubModel.QueueDelivery(s, input, routable, now).0, id)
  {
  }

  lemma HubOpLeavesDone(c: HubStale.Stale, op: HubRuns.HubOp, id: string)
    requires HubStale.Carried(c) && HubRuns.Possible(c.hub, op) && HubDone(c, id)
    requires op.DoQueue? && op.input.id == id ==> !op.input.redelivery && HubModel.MarkerKey(id, op.input.agent) in c.hub.markers
    ensures StaysDone(c.hub, HubRuns.Apply(c.hub, op), id)
  {
    match op
    case DoRename(listing, renames, slug) => RenameLeavesDone(c.hub, listing, renames, slug, id);
    case DoQueue(input, routable, now) => QueueLeavesDone(c.hub, input, routable, now, id);
    case _ => OtherOpLeavesDone(c.hub, op, id, c.ledger);
  }

  /** A copy that cannot die is not sent either: its number is nobody else's, and the entry is gone. */
  lemma VisitLeavesDone(c: HubStale.Stale, run: nat, key: HubModel.QueueKey, env: HubModel.DispatchEnv, id: string)
    requires HubStale.Carried(c) && HubStale.Possible(c, HubStale.Visit(run, key, env)) && HubDone(c, id)
    ensures StaysDone(c.hub, HubStale.Next(c, HubStale.Visit(run, key, env)).hub, id)
  {
    var item := c.runs[run].items[key];
    assert HubStale.IsCopy(c.hub, c.ledger, key, item);
    if key in c.hub.queue {
      assert HubRuns.Content(c.hub.queue[key]).id == HubRuns.Content(item).id;
    }
  }

  lemma HubStepLeavesDone(c: HubStale.Stale, step: HubStale.Step, id: string)
    requires HubStale.Carried(c) && HubStale.Possible(c, step) && HubDone(c, id)
    requires step.Do? && step.op.DoQueue? && step.op.input.id == id ==>
               !step.op.input.redelivery && HubModel.MarkerKey(id, step.op.input.agent) in c.hub.markers
    ensures HubDone(HubStale.Next(c, step), id) && StaysDone(c.hub, HubStale.Next(c, step).hub, id)
  {
    match step
    case List(_, _, _) =>
    case Visit(run, key, env) => VisitLeavesDone(c, run, key, env, id);
    case Do(op) => HubOpLeavesDone(c, op, id);
  }

  lemma StepLeavesDone(w: World, step: Step, id: string)
    requires Sound(w) && Enabled(w, step) && Asleep(w, id)
    ensures HubDone(HubNext(w, step), id) && StaysDone(w.hub.hub, HubNext(w, step).hub, id)
  {
    var there := AtTheHub(w, step);
    if there.Some? {
      assert step.Reach? && w.calls[step.call].id == id ==> !CallWakes(w, w.calls[step.call]);
      HubStepLeavesDone(w.hub, there.value, id);
    }
  }

  /** No dispatch is called for that was not: what rests is not due. */
  lemma StepCallsNothing(w: World, step: Step, id: string)
    requires Sound(w) && Enabled(w, step) && Asleep(w, id) && id in CalledNext(w, step)
    ensures id in w.called
  {
  }

  lemma StepRests(w: World, step: Step, id: string)
    requires Sound(w) && Enabled(w, step) && InParts(step) && Asleep(w, id)
    ensures var w' := Next(w, step);
            id in w'.s.deliveries && Rests(w'.s.deliveries[id]) && (w'.s.deliveries[id].settledAt.None? ==> id !in w.called)
  {
    if Ends(step) {
      EndRests(w, step, id);
    } else if step.Do? {
      DoRests(w.s, step.op, id);
    }
  }

  lemma StepWakesNoRun(w: World, step: Step, id: string, run: nat)
    requires Sound(w) && Enabled(w, step) && Asleep(w, id)
    requires run in PendingNext(w, step) && PendingNext(w, step)[run].id == id
    ensures !Wakes(Next(w, step), PendingNext(w, step)[run])
  {
    var w' := Next(w, step);
    PendingAfter(w, step, run);
    if id in w'.called {
      StepCallsNothing(w, step, id);
    }
    if run in w.pending {
      assert !Wakes(w, w.pending[run]);
      SleepsOn(w, w', w.pending[run], w'.pending[run]);
    }
  }

  lemma SleepsOn(w: World, w': World, p: Underway, p': Underway)
    requires Continues(p, p') && !Wakes(w, p) && (p.id in w'.called ==> p.id in w.called)
    ensures !Wakes(w', p')
  {
  }

  /** A call that begins is of a dispatch that begins, and what rests is called for no more once it is unsettled. */
  lemma StepWakesNoCall(w: World, step: Step, id: string, call: nat)
    requires Sound(w) && Enabled(w, step) && Asleep(w, id) && call in CallsNext(w, step) && CallsNext(w, step)[call].id == id
    ensures !CallWakes(Next(w, step), CallsNext(w, step)[call])
  {
    StepLeavesDone(w, step, id);
    assert call in w.calls && w.calls[call] == CallsNext(w, step)[call];
    assert !CallWakes(w, w.calls[call]);
  }

  lemma StepWakesNothing(w: World, step: Step, id: string)
    requires Sound(w) && Enabled(w, step) && Asleep(w, id)
    ensures !Waking(Next(w, step), id)
  {
    var w' := Next(w, step);
    forall run | run in w'.pending && w'.pending[run].id == id ensures !Wakes(w', w'.pending[run]) {
      StepWakesNoRun(w, step, id, run);
    }
    forall call | call in w'.calls && w'.calls[call].id == id ensures !CallWakes(w', w'.calls[call]) {
      StepWakesNoCall(w, step, id, call);
    }
  }

  lemma StepStaysAsleep(w: World, step: Step, id: string)
    requires Sound(w) && Enabled(w, step) && InParts(step) && Asleep(w, id)
    ensures Asleep(Next(w, step), id)
  {
    StepRests(w, step, id);
    StepLeavesDone(w, step, id);
    StepWakesNothing(w, step, id);
    if id in CalledNext(w, step) {
      StepCallsNothing(w, step, id);
    }
  }

  lemma {:induction false} StaysAsleep(w: World, steps: seq<Step>, id: string)
    requires Sound(w) && EnabledRun(w, steps) && AllInParts(steps) && Asleep(w, id)
    ensures Asleep(RunSteps(w, steps), id)
    decreases |steps|
  {
    if steps != [] {
      StepStaysAsleep(w, steps[0], id);
      StepSound(w, steps[0]);
      StaysAsleep(Next(w, steps[0]), steps[1..], id);
    }
  }

  // ---------------------------------------------------------------- what wakes it

  lemma AlreadyQueued(w: World, id: string)
    requires InQueue(w.hub.hub, id)
    ensures CanQueue(w, id)
  {
    assert Queues(w, [], id);
  }

  lemma StepThen(w: World, step: Step, id: string)
    requires Enabled(w, step) && InParts(step) && CanQueue(Next(w, step), id)
    ensures CanQueue(w, id)
  {
    var rest :| Queues(Next(w, step), rest, id);
    FirstThenRest(w, step, rest);
    assert ([step] + rest)[1..] == rest;
    assert Queues(w, [step] + rest, id);
  }

  /** Somebody the hub has no marker of. */
  lemma Unknown(s: HubModel.HubState, id: string) returns (agent: string)
    ensures HubModel.MarkerKey(id, agent) !in s.markers
  {
    var agents := set m | m in s.markers :: m.agent;
    var n := LongerThanAll(agents);
    agent := Filler(n);
    assert HubModel.MarkerKey(id, agent) in s.markers ==> agent in agents;
  }

  lemma CallReaches(w: World, call: nat, agent: string)
    requires call in w.calls && (w.calls[call].copy.toAgent ==> agent == w.agent)
    requires w.calls[call].copy.attempts > 0 || HubModel.MarkerKey(w.calls[call].id, agent) !in w.hub.hub.markers
    ensures CanQueue(w, w.calls[call].id)
  {
    var id := w.calls[call].id;
    var w1 := Next(w, Reach(call, agent, None, true, 0));
    assert HubModel.IsQueued(w1.hub.hub, HubModel.MarkerKey(id, agent));
    AlreadyQueued(w1, id);
    StepThen(w, Reach(call, agent, None, true, 0), id);
  }

  lemma CallQueues(w: World, call: nat)
    requires call in w.calls && CallWakes(w, w.calls[call])
    ensures CanQueue(w, w.calls[call].id)
  {
    if w.calls[call].copy.toAgent {
      CallReaches(w, call, w.agent);
    } else {
      var agent := Unknown(w.hub.hub, w.calls[call].id);
      CallReaches(w, call, agent);
    }
  }

  predicate Open(w: World, id: string) {
    id in w.s.deliveries && w.s.deliveries[id].settledAt.None? && !w.s.deliveries[id].status.Dead?
  }

  lemma NewCall(w: World) returns (call: nat)
    ensures call !in w.calls && call !in w.accepted
  {
    call := GreaterThanAll(w.calls.Keys + w.accepted);
  }

  lemma AgainQueues(w: World, run: nat, id: string)
    requires run !in w.pending && Open(w, id) && w.s.active && id in w.called && w.s.deliveries[id].attempts > 0
    ensures CanQueue(w, id)
  {
    var call := NewCall(w);
    CallReaches(Next(w, Begin(run, call, id)), call, w.agent);
    StepThen(w, Begin(run, call, id), id);
  }

  lemma DueAgainQueues(w: World, run: nat, id: string)
    requires run !in w.pending && Open(w, id) && w.s.deliveries[id].nextAttemptAt.Some? && w.s.deliveries[id].attempts > 0
    ensures CanQueue(w, id)
  {
    var w1 := Next(w, Activate);
    var scan := Scan(w.s.deliveries[id].nextAttemptAt.value);
    AgainQueues(Next(w1, scan), run, id);
    StepThen(w1, scan, id);
    StepThen(w, Activate, id);
  }

  /** A dispatch whose call has been answered ends well, and the delivery is due for another. */
  lemma AnsweredQueues(w: World, run: nat)
    requires run in w.pending && w.pending[run].Dispatching? && w.pending[run].call in w.accepted
    requires !SessionHeld(w.pending[run].copy) && w.pending[run].copy.settledAt.None?
    ensures CanQueue(w, w.pending[run].id)
  {
    var id := w.pending[run].id;
    DueAgainQueues(Next(w, End(run, None, 0)), run, id);
    StepThen(w, End(run, None, 0), id);
  }

  lemma BegunQueues(w: World, run: nat, call: nat)
    requires run in w.pending && w.pending[run].Dispatching? && w.pending[run].call == call && call in w.calls
    requires !SessionHeld(w.pending[run].copy) && w.pending[run].copy.settledAt.None?
    ensures CanQueue(w, w.pending[run].id)
  {
    var reach := Reach(call, w.agent, None, true, 0);
    AnsweredQueues(Next(w, reach), run);
    StepThen(w, reach, w.pending[run].id);
  }

  lemma CalledQueues(w: World, run: nat, id: string)
    requires run !in w.pending && Open(w, id) && id in w.called && !SessionHeld(w.s.deliveries[id])
    ensures CanQueue(w, id)
  {
    var w1 := Next(w, Activate);
    var call := NewCall(w1);
    BegunQueues(Next(w1, Begin(run, call, id)), run, call);
    StepThen(w1, Begin(run, call, id), id);
    StepThen(w, Activate, id);
  }

  lemma DueQueues(w: World, run: nat, id: string)
    requires run !in w.pending && Open(w, id) && w.s.deliveries[id].nextAttemptAt.Some? && !SessionHeld(w.s.deliveries[id])
    ensures CanQueue(w, id)
  {
    var scan := Scan(w.s.deliveries[id].nextAttemptAt.value);
    CalledQueues(Next(w, scan), run, id);
    StepThen(w, scan, id);
  }

  /** A later arrival through a pane: the session no longer counts as holding it. */
  function PaneArrival(d: Delivery, id: string): Step {
    Do(DoInjection(id, d.targetAddr, "pane", 0))
  }

  lemma Unheld(w: World, id: string)
    requires Open(w, id)
    ensures var w' := Next(w, PaneArrival(w.s.deliveries[id], id));
            && Open(w', id) && !SessionHeld(w'.s.deliveries[id]) && w'.s.deliveries[id].readAt == w.s.deliveries[id].readAt
            && w'.pending == w.pending && w'.called == w.called
    ensures InParts(PaneArrival(w.s.deliveries[id], id)) && Enabled(w, PaneArrival(w.s.deliveries[id], id))
  {
    assert "pane" != "adapter" by {
      assert |"pane"| != |"adapter"|;
    }
  }

  /** Open and unread: its first read puts it on the clock. */
  lemma UnreadQueues(w: World, run: nat, id: string)
    requires run !in w.pending && Open(w, id) && w.s.deliveries[id].readAt.None?
    ensures CanQueue(w, id)
  {
    var pane := PaneArrival(w.s.deliveries[id], id);
    Unheld(w, id);
    var w1 := Next(w, pane);
    DueQueues(Next(w1, Do(DoRead(id, 0))), run, id);
    StepThen(w1, Do(DoRead(id, 0)), id);
    StepThen(w, pane, id);
  }

  lemma OpenCalledQueues(w: World, run: nat, id: string)
    requires run !in w.pending && Open(w, id) && id in w.called
    ensures CanQueue(w, id)
  {
    var pane := PaneArrival(w.s.deliveries[id], id);
    Unheld(w, id);
    CalledQueues(Next(w, pane), run, id);
    StepThen(w, pane, id);
  }

  lemma DispatchWakes(w: World, run: nat)
    requires Sound(w) && run in w.pending && w.pending[run].Dispatching? && Wakes(w, w.pending[run])
    ensures CanQueue(w, w.pending[run].id)
  {
    var p := w.pending[run];
    assert PendingSound(w.s, p);
    var step := End(run, Some("no answer"), 0);
    var w1 := Next(w, step);
    if !SessionHeld(p.copy) {
      DueQueues(w1, run, p.id);
    } else if p.id in w.called {
      OpenCalledQueues(w1, run, p.id);
    } else {
      UnreadQueues(w1, run, p.id);
    }
    StepThen(w, step, p.id);
  }

  lemma ReadWakes(w: World, run: nat)
    requires Sound(w) && run in w.pending && w.pending[run].Reading? && Wakes(w, w.pending[run])
    ensures CanQueue(w, w.pending[run].id)
  {
    var p := w.pending[run];
    assert PendingSound(w.s, p);
    DueQueues(Next(w, EndRead(run, true, 0)), run, p.id);
    StepThen(w, EndRead(run, true, 0), p.id);
  }

  lemma ReplyWakes(w: World, run: nat)
    requires Sound(w) && run in w.pending && w.pending[run].Checking? && Wakes(w, w.pending[run])
    ensures CanQueue(w, w.pending[run].id)
  {
    var p := w.pending[run];
    assert PendingSound(w.s, p);
    var w1 := Next(w, EndCheck(run, true, 0));
    var failed := EndPost(run, Some("offline"), 0);
    var w2 := Next(w1, failed);
    if p.id in w.called {
      OpenCalledQueues(w2, run, p.id);
    } else {
      UnreadQueues(w2, run, p.id);
    }
    StepThen(w1, failed, p.id);
    StepThen(w, EndCheck(run, true, 0), p.id);
  }

  lemma FirstDeadOf(s: HubModel.HubState, id: string, m: HubModel.MarkerKey) returns (first: HubModel.MarkerKey)
    requires m in s.markers && m.id == id && s.markers[m].Dead?
    ensures HubModel.FirstDead(s, id, Some(first))
  {
    var dead := set k | k in s.markers && k.id == id && s.markers[k].Dead?;
    HubListings.MarkersOrdered(dead, id);
    assert m in dead;
    first := Storage.Least(dead, HubModel.ListedBefore);
  }

  lemma DeadQueuesAgain(w: World, id: string, m: HubModel.MarkerKey)
    requires m in w.hub.hub.markers && m.id == id && w.hub.hub.markers[m].Dead?
    ensures CanQueue(w, id)
  {
    var first := FirstDeadOf(w.hub.hub, id, m);
    var requeue := AtHub(HubStale.Do(HubRuns.DoRequeue(id, Some(first), 0)));
    assert HubModel.IsQueued(Next(w, requeue).hub.hub, first);
    AlreadyQueued(Next(w, requeue), id);
    StepThen(w, requeue, id);
  }

  /** A dispatch run of the hub buries its copy, and the dead letter is requeued. */
  lemma CopyQueuesAgain(w: World, id: string, run: nat, key: HubModel.QueueKey)
    requires run in w.hub.runs && key in w.hub.runs[run].items && w.hub.runs[run].items[key].id == id
    requires CanDie(w.hub.runs[run].now, w.hub.runs[run].items[key])
    ensures CanQueue(w, id)
  {
    var visit := AtHub(HubStale.Visit(run, key, HubModel.DispatchEnv(w.hub.runs[run].now, false, false, None)));
    DeadQueuesAgain(Next(w, visit), id, HubModel.MarkerOf(w.hub.runs[run].items[key]));
    StepThen(w, visit, id);
  }

  lemma UndoneQueues(w: World, id: string)
    requires !HubDone(w.hub, id)
    ensures CanQueue(w, id)
  {
    if m :| m in w.hub.hub.markers && m.id == id && !w.hub.hub.markers[m].Injected? {
      if w.hub.hub.markers[m].Queued? {
        AlreadyQueued(w, id);
      } else {
        DeadQueuesAgain(w, id, m);
      }
    } else if k :| k in w.hub.hub.queue && w.hub.hub.queue[k].id == id {
      AlreadyQueued(w, id);
    } else {
      var run, key :| run in w.hub.runs && key in w.hub.runs[run].items && w.hub.runs[run].items[key].id == id
                      && CanDie(w.hub.runs[run].now, w.hub.runs[run].items[key]);
      CopyQueuesAgain(w, id, run, key);
    }
  }

  lemma AwakeQueues(w: World, id: string)
    requires Sound(w) && Waking(w, id)
    ensures CanQueue(w, id)
  {
    if call :| call in w.calls && w.calls[call].id == id && CallWakes(w, w.calls[call]) {
      CallQueues(w, call);
    } else {
      var run :| run in w.pending && w.pending[run].id == id && Wakes(w, w.pending[run]);
      match w.pending[run]
      case Dispatching(_, _, _) => DispatchWakes(w, run);
      case Reading(_, _) => ReadWakes(w, run);
      case Checking(_, _, _, _) => ReplyWakes(w, run);
    }
  }

  lemma AsleepNeverQueues(w: World, id: string)
    requires Sound(w) && Asleep(w, id)
    ensures !CanQueue(w, id)
  {
    forall steps | EnabledRun(w, steps) && AllInParts(steps) ensures !Queues(w, steps, id) {
      StaysAsleep(w, steps, id);
      assert HubDone(RunSteps(w, steps).hub, id);
    }
  }

  /**
   A settled delivery is queued for its agent in no continuation, whatever the hub's
   storage permits, exactly when the hub is done with it and nothing under way, no call on
   its way to the hub included, can wake it.
   */
  lemma NeverQueuedAgainExact(w: World, id: string)
    requires Sound(w) && Settled(w, id)
    ensures !CanQueue(w, id) <==> HubDone(w.hub, id) && !Waking(w, id)
  {
    if !HubDone(w.hub, id) {
      UndoneQueues(w, id);
    } else if Waking(w, id) {
      AwakeQueues(w, id);
    } else {
      AsleepNeverQueues(w, id);
    }
  }

  /** The cancellation that follows a settlement leaves the message injected everywhere, unless it had died somewhere. */
  lemma DrainInjects(w: World, id: string)
    requires id in w.s.deliveries
    ensures AllInjected(Next(w, Drain(id)).hub.hub, id) <==>
            forall m :: m in w.hub.hub.markers && m.id == id ==> !w.hub.hub.markers[m].Dead?
  {
  }

  /**
   In a hub that keeps its invariant, the cancellation that follows a settlement is done
   with the message exactly when it had died for nobody and no dispatch run can bury a copy.
   */
  lemma DrainIsDoneExact(w: World, id: string)
    requires HubInvariant.Inv(w.hub.hub) && id in w.s.deliveries
    ensures HubDone(Next(w, Drain(id)).hub, id) <==>
            && (forall m :: m in w.hub.hub.markers && m.id == id ==> !w.hub.hub.markers[m].Dead?)
            && (forall run, k :: run in w.hub.runs && k in w.hub.runs[run].items && w.hub.runs[run].items[k].id == id ==>
                  !CanDie(w.hub.runs[run].now, w.hub.runs[run].items[k]))
  {
    HubInvariant.CancelExact(w.hub.hub, id);
  }

  // ---------------------------------------------------------------- settled, drained, and queued again

  function Handled2(id: string): seq<Step> {
    [Do(DoHandled(id, 2))] + ([Drain(id)] + [])
  }

  /** A dispatch run of the hub has listed the expired entry when the message is handled and drained. */
  function DrainedWhileListed(id: string, agent: string): seq<Step> {
    [AtHub(FirstListing(agent))] + ([End(0, None, 1)] + Handled2(id))
  }

  /** Nothing is under way in the integration or on its way to the hub. */
  ghost predicate Idle(w: World) {
    w.pending == map[] && w.calls == map[] && w.called == {} && w.listed == map[]
  }

  lemma HandledAndDrained(w: World, id: string)
    requires id in w.s.deliveries && w.s.deliveries[id].settledAt.None?
    ensures EnabledRun(w, Handled2(id))
    ensures var w' := RunSteps(w, Handled2(id));
            && Settled(w', id) && w'.pending == w.pending && w'.calls == w.calls && w'.called == w.called && w'.listed == w.listed
            && w'.hub == HubStale.Next(w.hub, HubStale.Do(HubRuns.DoCancel(id))) && w'.agent == w.agent
  {
    var w1 := Next(w, Do(DoHandled(id, 2)));
    FirstThenRest(w1, Drain(id), []);
    FirstThenRest(w, Do(DoHandled(id, 2)), [Drain(id)] + []);
  }

  function FirstListing(agent: string): HubStale.Step {
    HubStale.List(0, {HubModel.QueueKey(agent, 1)}, HubModel.DELIVERY_TTL_MS)
  }

  /** At the hub: queued, listed when expired, cancelled. */
  lemma ListedThenCancelled(e: Event, id: string, agent: string)
    ensures var queued := HubStale.Next(HubStale.START, HubStale.Do(FirstQueueing(e, id, agent)));
            var c := HubStale.Next(HubStale.Next(queued, FirstListing(agent)), HubStale.Do(HubRuns.DoCancel(id)));
            var key := HubModel.QueueKey(agent, 1);
            && AllInjected(c.hub, id) && 0 in c.runs && key in c.runs[0].items
            && c.runs[0].items[key].id == id && CanDie(c.runs[0].now, c.runs[0].items[key])
  {
  }

  lemma EndedWhileListed(w: World, id: string)
    requires w.pending.Keys == {0} && w.pending[0].Dispatching? && w.pending[0].id == id && w.pending[0].call in w.accepted
    requires w.pending[0].copy.settledAt.None? && w.calls == map[] && w.called == {} && w.listed == map[]
    ensures Enabled(w, End(0, None, 1))
    ensures var w' := Next(w, End(0, None, 1));
            id in w'.s.deliveries && w'.s.deliveries[id].settledAt.None? && Idle(w') && w'.hub == w.hub
  {
  }

  lemma ListedThenEnded(e: Event, id: string, limit: nat, agent: string)
    ensures var w := Queued3(e, id, limit, agent);
            && Enabled(w, AtHub(FirstListing(agent)))
            && Enabled(Next(w, AtHub(FirstListing(agent))), End(0, None, 1))
            && var w2 := Next(Next(w, AtHub(FirstListing(agent))), End(0, None, 1));
               && id in w2.s.deliveries && w2.s.deliveries[id].settledAt.None? && Idle(w2)
               && w2.hub == HubStale.Next(w.hub, FirstListing(agent))
  {
    EndedWhileListed(Next(Queued3(e, id, limit, agent), AtHub(FirstListing(agent))), id);
  }

  /**
   It does happen: the message is handled and drained, every marker of it reads injected
   and nothing is under way, and the hub's run goes on to bury its copy, which can be
   requeued.
   */
  lemma StaleRunQueuesAgain(e: Event, id: string, limit: nat, agent: string)
    ensures EnabledRun(Configured(limit, agent), Dispatch(e, id, agent))
    ensures var w := RunSteps(Configured(limit, agent), Dispatch(e, id, agent));
            && EnabledRun(w, DrainedWhileListed(id, agent))
            && var w' := RunSteps(w, DrainedWhileListed(id, agent));
               Settled(w', id) && Idle(w') && AllInjected(w'.hub.hub, id) && CanQueue(w', id)
  {
    DispatchUnderway(e, id, limit, agent);
    var w := Queued3(e, id, limit, agent);
    ListedThenEnded(e, id, limit, agent);
    ListedThenCancelled(e, id, agent);
    var w1 := Next(w, AtHub(FirstListing(agent)));
    var w2 := Next(w1, End(0, None, 1));
    HandledAndDrained(w2, id);
    FirstThenRest(w1, End(0, None, 1), Handled2(id));
    FirstThenRest(w, AtHub(FirstListing(agent)), [End(0, None, 1)] + Handled2(id));
    CopyQueuesAgain(RunSteps(w2, Handled2(id)), id, 0, HubModel.QueueKey(agent, 1));
  }

  /** The dispatch gives up on its call. */
  function GivenUp(e: Event, id: string): seq<Step> {
    [Record(e, id, true)] + ([Begin(0, 0, id)] + ([End(0, Some("timeout"), 1)] + []))
  }

  lemma DispatchGivenUp(e: Event, id: string, limit: nat, agent: string)
    ensures EnabledRun(Configured(limit, agent), GivenUp(e, id))
    ensures var w := RunSteps(Configured(limit, agent), GivenUp(e, id));
            && w.pending == map[] && w.called == {} && w.calls == map[0 := Call(id, NewDelivery(e))]
            && w.hub == HubStale.START && w.agent == agent
            && id in w.s.deliveries && w.s.deliveries[id].settledAt.None?
  {
    var last := [End(0, Some("timeout"), 1)] + [];
    RecordedThenBegun(e, id, limit, agent);
    FirstThenRest(Begun2(e, id, limit, agent), End(0, Some("timeout"), 1), []);
    FirstThenRest(Recorded1(e, id, limit, agent), Begin(0, 0, id), last);
    FirstThenRest(Configured(limit, agent), Record(e, id, true), [Begin(0, 0, id)] + last);
  }

  lemma EmptyIsDone(id: string)
    ensures HubDone(HubStale.Next(HubStale.START, HubStale.Do(HubRuns.DoCancel(id))), id)
    ensures HubStale.Next(HubStale.START, HubStale.Do(HubRuns.DoCancel(id))).hub.markers == map[]
  {
  }

  /** It does happen, too, that the message is handled and drained before the hub runs the call, which then queues it. */
  lemma LateCallQueues(e: Event, id: string, limit: nat, agent: string)
    ensures EnabledRun(Configured(limit, agent), GivenUp(e, id))
    ensures var w := RunSteps(Configured(limit, agent), GivenUp(e, id));
            && EnabledRun(w, Handled2(id))
            && var w' := RunSteps(w, Handled2(id));
               Settled(w', id) && w'.pending == map[] && w'.called == {} && HubDone(w'.hub, id) && CanQueue(w', id)
  {
    DispatchGivenUp(e, id, limit, agent);
    var w := RunSteps(Configured(limit, agent), GivenUp(e, id));
    HandledAndDrained(w, id);
    EmptyIsDone(id);
    CallQueues(RunSteps(w, Handled2(id)), 0);
  }
}
