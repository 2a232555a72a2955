/**
 When a hold recorded by an injection stands (src/do/integration.ts): a native adapter has
 the envelope in its agent's session, so redelivery is suspended; a run under way can write
 back a copy that knows nothing of it.
 */
module SessionHold {
  import opened Common
  import opened IntegrationModel
  import opened Awaits
  import IntegrationLaws
  import HubModel
  import HubRuns
  import HubStale
  import Redelivery

  predicate Held(s: Integration, id: string) {
    id in s.deliveries && SessionHeld(s.deliveries[id])
  }

  /** The run may write back a copy without the hold. */
  predicate Drops(p: Underway) {
    && !SessionHeld(p.copy)
    && (p.Reading? ==> p.copy.readAt.None? && p.copy.settledAt.None?)
    && (p.Handling? ==> p.copy.settledAt.None?)
  }

  ghost predicate Dropping(w: World, id: string) {
    exists run :: run in w.pending && w.pending[run].id == id && Drops(w.pending[run])
  }

  /** No other transport reports an arrival of it, which would take the hold away by itself. */
  predicate OnlyAdapter(step: Step, id: string) {
    step.Do? && step.op.DoInjection? && step.op.id == id ==> step.op.via == "adapter"
  }

  predicate AllOnlyAdapter(steps: seq<Step>, id: string) {
    steps == [] || (OnlyAdapter(steps[0], id) && AllOnlyAdapter(steps[1..], id))
  }

  lemma {:induction false} DispatchDueHeld(s: Integration, ids: seq<string>, errors: map<string, string>, now: int, id: string)
    requires Held(s, id)
    ensures Held(DispatchDue(s, ids, errors, now), id)
  {
    if ids != [] {
      DispatchDueHeld(s, ids[..|ids| - 1], errors, now, id);
    }
  }

  lemma {:induction false} RetryRepliesHeld(s: Integration, ids: seq<string>, errors: map<string, string>, now: int, id: string)
    requires Held(s, id)
    ensures Held(RetryReplies(s, ids, errors, now), id)
  {
    if ids != [] {
      RetryRepliesHeld(s, ids[..|ids| - 1], errors, now, id);
    }
  }

  lemma ReplyHeld(s: Integration, id: string, caller: string, message: string, error: Option<string>, now: int)
    requires Held(s, id)
    ensures Held(ChatReply(s, id, caller, message, error, now), id)
  {
  }

  lemma OpHeld(s: Integration, op: Op, id: string)
    requires Held(s, id) && OnlyAdapter(Do(op), id) && (op.DoIngest? ==> op.id != id)
    ensures Held(Apply(s, op), id)
  {
    match op
    case DoAlarm(env, now) =>
      var fired := s.(budget := s.budget.(alarm := None));
      RetryRepliesHeld(fired, env.listing.replies, env.replyErrors, now, id);
      DispatchDueHeld(RetryReplies(fired, env.listing.replies, env.replyErrors, now), env.listing.deliveries, env.dispatchErrors, now, id);
    case DoResume(env, now) => DispatchDueHeld(s.(active := true), env.listing.deliveries, env.dispatchErrors, now, id);
    case DoReply(other, caller, message, error, now) =>
      if other == id {
        ReplyHeld(s, id, caller, message, error, now);
      }
    case _ =>
  }

  lemma EndedHeld(s: Integration, p: Underway, step: Step)
    requires PendingSound(s, p) && Fits(p, step) && !Drops(p) && Held(s, p.id)
    ensures Held(Ended(s, p, step), p.id)
  {
  }

  lemma EndHeld(w: World, step: Step, id: string)
    requires Sound(w) && Enabled(w, step) && Ends(step) && Held(w.s, id) && !Dropping(w, id)
    ensures Held(Ended(w.s, w.pending[step.run], step), id)
  {
    var p := w.pending[step.run];
    assert PendingSound(w.s, p);
    EndedQuiet(w.s, p, step);
    if p.id == id {
      assert !Drops(p);
      EndedHeld(w.s, p, step);
    }
  }

  lemma StepHeld(w: World, step: Step, id: string)
    requires Sound(w) && Enabled(w, step) && OnlyAdapter(step, id) && Held(w.s, id) && !Dropping(w, id)
    ensures Held(StoredNext(w, step), id)
  {
    if Ends(step) {
      EndHeld(w, step, id);
    } else if step.Do? {
      OpHeld(w.s, step.op, id);
    }
  }

  lemma StepStartsNoDrop(w: World, step: Step, id: string)
    requires Enabled(w, step) && Held(w.s, id) && !Dropping(w, id)
    ensures !Dropping(Next(w, step), id)
  {
    var w' := Next(w, step);
    forall run | run in w'.pending && w'.pending[run].id == id ensures !Drops(w'.pending[run]) {
      PendingAfter(w, step, run);
      assert run in w.pending && w.pending[run].id == id ==> !Drops(w.pending[run]);
    }
  }

  lemma {:induction false} HoldStands(w: World, steps: seq<Step>, id: string)
    requires Sound(w) && EnabledRun(w, steps) && AllOnlyAdapter(steps, id) && Held(w.s, id) && !Dropping(w, id)
    ensures Held(RunSteps(w, steps).s, id)
    decreases |steps|
  {
    if steps != [] {
      StepHeld(w, steps[0], id);
      StepStartsNoDrop(w, steps[0], id);
      StepSound(w, steps[0]);
      HoldStands(Next(w, steps[0]), steps[1..], id);
    }
  }

  /** How the run writes its copy back. */
  function WriteBack(run: nat, p: Underway): Step {
    match p
    case Dispatching(_, _, _) => End(run, Some("no answer"), 0)
    case Reading(_, _) => EndRead(run, true, 0)
    case Handling(_, _) => EndHandled(run, true, 0)
    case Checking(_, _, _, _) => EndCheck(run, true, 0)
    case Posting(_, _, _, _) => EndPost(run, None, 0)
  }

  lemma WriteBackDrops(w: World, run: nat)
    requires run in w.pending && Drops(w.pending[run])
    ensures Enabled(w, WriteBack(run, w.pending[run]))
    ensures !Held(Next(w, WriteBack(run, w.pending[run])).s, w.pending[run].id)
  {
  }

  /**
   A recorded hold survives every continuation in which no other transport reports an
   arrival exactly when nothing that will write back a copy without it is under way.
   */
  lemma HoldSurvivesExact(w: World, id: string)
    requires Sound(w) && Held(w.s, id)
    ensures (forall steps :: EnabledRun(w, steps) && AllOnlyAdapter(steps, id) ==> Held(RunSteps(w, steps).s, id)) <==> !Dropping(w, id)
  {
    if run :| run in w.pending && w.pending[run].id == id && Drops(w.pending[run]) {
      var step := WriteBack(run, w.pending[run]);
      WriteBackDrops(w, run);
      FirstThenRest(w, step, []);
      assert ([step] + [])[1..] == [];
      assert AllOnlyAdapter([step] + [], id);
    } else {
      forall steps | EnabledRun(w, steps) && AllOnlyAdapter(steps, id) ensures Held(RunSteps(w, steps).s, id) {
        HoldStands(w, steps, id);
      }
    }
  }

  // ---------------------------------------------------------------- it does happen

  function FirstAck(id: string, agent: string): HubRuns.HubOp {
    HubRuns.DoAck(id, Some(agent), Some(HubModel.MarkerKey(id, agent)))
  }

  lemma AckedAtHub(e: Event, id: string, agent: string)
    ensures var queued := HubStale.Next(HubStale.START, HubStale.Do(Redelivery.FirstQueueing(e, id, agent)));
            && HubRuns.Possible(queued.hub, FirstAck(id, agent))
            && !Redelivery.InQueue(HubStale.Next(queued, HubStale.Do(FirstAck(id, agent))).hub, id)
  {
    var queued := HubStale.Next(HubStale.START, HubStale.Do(Redelivery.FirstQueueing(e, id, agent))).hub;
    var m := HubModel.MarkerKey(id, agent);
    assert queued.markers.Keys == {m} && HubModel.IsQueued(queued, m);
    assert HubModel.Resolves(queued, id, Some(agent), Some(m));
    assert HubModel.Ack(queued, Some(m)).queue == map[] && HubModel.Ack(queued, Some(m)).markers == map[m := HubModel.Injected];
  }

  /** A dispatch ends that read the delivery before the hold was recorded. */
  lemma EndDropsHold(w: World, id: string)
    requires 0 in w.pending && w.pending[0].Dispatching? && w.pending[0].id == id && w.pending[0].call in w.accepted
    requires !SessionHeld(w.pending[0].copy) && w.pending[0].copy.settledAt.None? && !w.pending[0].copy.status.Dead?
    ensures Enabled(w, End(0, None, 2))
    ensures var w' := Next(w, End(0, None, 2));
            && !Held(w'.s, id) && id in w'.s.deliveries && w'.s.deliveries[id].nextAttemptAt.Some?
            && w'.hub == w.hub && Redelivery.CanQueue(w', id)
  {
    Redelivery.DueAgainQueues(Next(w, End(0, None, 2)), 0, id);
  }

  /** The dispatch still awaits the hub's answer when the daemon has acked by its adapter and the report has arrived. */
  ghost function Reported(e: Event, id: string, limit: nat, agent: string): World {
    AckedAtHub(e, id, agent);
    var w := Redelivery.Queued3(e, id, limit, agent);
    w.(s := RecordInjection(w.s, id, e.targetAddr, "adapter", 1), hub := HubStale.Next(w.hub, HubStale.Do(FirstAck(id, agent))))
  }

  lemma AckThenReport(e: Event, id: string, limit: nat, agent: string)
    ensures EnabledRun(Configured(limit, agent), Redelivery.Dispatch(e, id, agent))
    ensures var w := RunSteps(Configured(limit, agent), Redelivery.Dispatch(e, id, agent));
            var ack, report := AtHub(HubStale.Do(FirstAck(id, agent))), Do(DoInjection(id, e.targetAddr, "adapter", 1));
            Enabled(w, ack) && Enabled(Next(w, ack), report) && Next(Next(w, ack), report) == Reported(e, id, limit, agent)
  {
    Redelivery.DispatchUnderway(e, id, limit, agent);
    AckedAtHub(e, id, agent);
    var w := Redelivery.Queued3(e, id, limit, agent);
    HubStepAlone(w, HubStale.Do(FirstAck(id, agent)));
    ReportAlone(w.(hub := HubStale.Next(w.hub, HubStale.Do(FirstAck(id, agent)))), id, e.targetAddr);
  }

  lemma HubStepAlone(w: World, step: HubStale.Step)
    requires HubStale.Possible(w.hub, step) && (step.Do? ==> !step.op.DoQueue?)
    ensures Enabled(w, AtHub(step)) && Next(w, AtHub(step)) == w.(hub := HubStale.Next(w.hub, step))
  {
  }

  lemma ReportAlone(w: World, id: string, targetAddr: string)
    ensures var report := Do(DoInjection(id, targetAddr, "adapter", 1));
            Enabled(w, report) && Next(w, report) == w.(s := RecordInjection(w.s, id, targetAddr, "adapter", 1))
  {
  }

  lemma ReportedHolds(e: Event, id: string, limit: nat, agent: string)
    requires e.toAgent
    ensures var w := Reported(e, id, limit, agent);
            && Held(w.s, id) && w.pending == map[0 := Dispatching(id, NewDelivery(e), 0)] && w.accepted == {0}
            && !Redelivery.InQueue(w.hub.hub, id)
  {
    AckedAtHub(e, id, agent);
    assert Redelivery.Queued3(e, id, limit, agent).s.deliveries == map[id := NewDelivery(e)] by {
      Redelivery.DispatchUnderway(e, id, limit, agent);
    }
  }

  /**
   So the end of the dispatch takes the hold away and dates a redelivery, which queues the
   message a second time.
   */
  lemma LateDispatchDropsHold(e: Event, id: string, limit: nat, agent: string)
    requires e.toAgent
    ensures var w := Reported(e, id, limit, agent);
            && Held(w.s, id) && Enabled(w, End(0, None, 2))
            && var w' := Next(w, End(0, None, 2));
               && !Held(w'.s, id) && id in w'.s.deliveries && w'.s.deliveries[id].nextAttemptAt.Some?
               && !Redelivery.InQueue(w'.hub.hub, id) && Redelivery.CanQueue(w', id)
  {
    ReportedHolds(e, id, limit, agent);
    EndDropsHold(Reported(e, id, limit, agent), id);
  }
}
