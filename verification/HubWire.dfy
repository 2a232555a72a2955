/**
 From acceptance to the wire (src/do/host-hub.ts): what a hub sends, shows and reports for
 a message is what it was asked to queue, whatever happens in between.
 */
module HubWire {
  import opened Common
  import opened HubModel
  import HubRuns
  import opened HubStale
  import HubInvariant

  ghost predicate PossibleRun(c: Stale, steps: seq<Step>)
    decreases |steps|
  {
    steps == [] || (Possible(c, steps[0]) && PossibleRun(Next(c, steps[0]), steps[1..]))
  }

  ghost function Through(c: Stale, steps: seq<Step>): Stale
    requires PossibleRun(c, steps)
    decreases |steps|
  {
    if steps == [] then c else Through(Next(c, steps[0]), steps[1..])
  }

  /** No rename of the run moves the entry of the number. */
  ghost predicate NeverMoved(c: Stale, steps: seq<Step>, n: nat)
    requires PossibleRun(c, steps)
    decreases |steps|
  {
    steps == [] || (!MovesNumber(c, steps[0], n) && NeverMoved(Next(c, steps[0]), steps[1..], n))
  }

  predicate MovesNumber(c: Stale, step: Step, n: nat) {
    step.Do? && step.op.DoRename?
    && exists k :: k in step.op.listing && k.number == n && k in c.hub.queue && c.hub.queue[k].agent in step.op.renames
  }

  /** No dead letter of the number is requeued. */
  ghost predicate NeverRevived(c: Stale, steps: seq<Step>, n: nat)
    requires PossibleRun(c, steps)
    decreases |steps|
  {
    steps == [] || (!RevivesNumber(c, steps[0], n) && NeverRevived(Next(c, steps[0]), steps[1..], n))
  }

  predicate RevivesNumber(c: Stale, step: Step, n: nat) {
    step.Do? && step.op.DoRequeue? && step.op.resolved.Some? && step.op.resolved.value in c.hub.markers
    && c.hub.markers[step.op.resolved.value].Dead? && c.hub.markers[step.op.resolved.value].key.number == n
  }

  lemma StepIssues(c: Stale, step: Step, n: nat)
    requires Carried(c) && Possible(c, step) && n in c.ledger.issued
    ensures var l := Next(c, step).ledger;
            && n in l.issued && l.issued[n] == c.ledger.issued[n]
            && (n !in c.ledger.moved && !MovesNumber(c, step, n) ==> n !in l.moved)
            && (n !in c.ledger.revived && !RevivesNumber(c, step, n) ==> n !in l.revived)
  {
  }

  lemma {:induction false} RunIssues(c: Stale, steps: seq<Step>, n: nat)
    requires Carried(c) && PossibleRun(c, steps) && n in c.ledger.issued
    ensures var end := Through(c, steps);
            && Carried(end) && n in end.ledger.issued && end.ledger.issued[n] == c.ledger.issued[n]
            && (n !in c.ledger.moved && NeverMoved(c, steps, n) ==> n !in end.ledger.moved)
            && (n !in c.ledger.revived && NeverRevived(c, steps, n) ==> n !in end.ledger.revived)
    decreases |steps|
  {
    if steps != [] {
      StepIssues(c, steps[0], n);
      StepCarried(c, steps[0]);
      RunIssues(Next(c, steps[0]), steps[1..], n);
    }
  }

  /** The item is the message the input asks for; the address and age are the input's own where told so. */
  predicate IsFrom(item: Item, input: DeliveryInput, now: int, unmoved: bool, unrevived: bool) {
    && item.id == input.id && item.org == input.org && item.envelope == input.envelope && item.render == input.render
    && item.roomName == input.roomName && item.roomSeq == input.roomSeq && item.connectionId == input.connectionId
    && (unmoved ==> item.targetAddr == input.targetAddr)
    && (unrevived ==> item.enqueuedAt == if input.enqueuedAt.Some? then input.enqueuedAt.value else now)
  }

  /** A hub has accepted the input at `now`, under this number. */
  ghost predicate AcceptedAs(c: Stale, input: DeliveryInput, routable: bool, now: int, n: nat) {
    Carried(c) && QueueDelivery(c.hub, input, routable, now).1 == Accepted && n == c.hub.sequence + 1
  }

  ghost function Accepting(c: Stale, input: DeliveryInput, routable: bool, now: int): Stale {
    Next(c, Do(HubRuns.DoQueue(input, routable, now)))
  }

  lemma AcceptedIssues(c: Stale, input: DeliveryInput, routable: bool, now: int, n: nat)
    requires AcceptedAs(c, input, routable, now, n)
    ensures var c1 := Accepting(c, input, routable, now);
            && Carried(c1) && n in c1.ledger.issued && n !in c1.ledger.moved && n !in c1.ledger.revived
            && c1.ledger.issued[n].message == HubRuns.MessageOf(input)
            && c1.ledger.issued[n].targetAddr == input.targetAddr
            && c1.ledger.issued[n].enqueuedAt == if input.enqueuedAt.Some? then input.enqueuedAt.value else now
    ensures var k := QueueKey(input.agent, n);
            var s' := Accepting(c, input, routable, now).hub;
            && k in s'.queue && IsFrom(s'.queue[k], input, now, true, true) && s'.queue[k].agent == input.agent
            && s'.queue[k].attempts == 0 && s'.queue[k].lastAttemptAt.None? && s'.queue[k].lastError.None?
            && s'.markers == c.hub.markers[MarkerKey(input.id, input.agent) := Queued(k)]
            && s'.sequence == n && forall other :: other != k ==> (other in s'.queue <==> other in c.hub.queue)
                                                                   && (other in c.hub.queue ==> s'.queue[other] == c.hub.queue[other])
  {
    StepCarried(c, Do(HubRuns.DoQueue(input, routable, now)));
  }

  /**
   Whatever the hub's storage permits after an acceptance, every entry, dead letter and
   listed copy under the accepted number is what the input asked for, at the input's own
   address until a rename moves it and counting from its own instant until it is requeued.
   */
  lemma NumberBearsInput(c: Stale, input: DeliveryInput, routable: bool, now: int, n: nat, steps: seq<Step>)
    requires AcceptedAs(c, input, routable, now, n) && PossibleRun(Accepting(c, input, routable, now), steps)
    ensures var c1 := Accepting(c, input, routable, now);
            var end := Through(c1, steps);
            var unmoved, unrevived := NeverMoved(c1, steps, n), NeverRevived(c1, steps, n);
            && (forall k :: k in end.hub.queue && k.number == n ==> IsFrom(end.hub.queue[k], input, now, unmoved, unrevived))
            && (forall m :: m in end.hub.markers && end.hub.markers[m].Dead? && end.hub.markers[m].key.number == n ==>
                  IsFrom(end.hub.markers[m].item, input, now, unmoved, unrevived))
            && (forall run, k :: run in end.runs && k in end.runs[run].items && k.number == n ==>
                  IsFrom(end.runs[run].items[k], input, now, unmoved, unrevived))
  {
    AcceptedIssues(c, input, routable, now, n);
    var c1 := Accepting(c, input, routable, now);
    RunIssues(c1, steps, n);
    var end := Through(c1, steps);
    var unmoved, unrevived := NeverMoved(c1, steps, n), NeverRevived(c1, steps, n);
    forall k | k in end.hub.queue && k.number == n ensures IsFrom(end.hub.queue[k], input, now, unmoved, unrevived) {
      StoredIsFrom(end.ledger, k, end.hub.queue[k], input, now, unmoved, unrevived);
    }
    forall m | m in end.hub.markers && end.hub.markers[m].Dead? && end.hub.markers[m].key.number == n
      ensures IsFrom(end.hub.markers[m].item, input, now, unmoved, unrevived)
    {
      StoredIsFrom(end.ledger, end.hub.markers[m].key, end.hub.markers[m].item, input, now, unmoved, unrevived);
    }
    forall run, k | run in end.runs && k in end.runs[run].items && k.number == n
      ensures IsFrom(end.runs[run].items[k], input, now, unmoved, unrevived)
    {
      assert IsCopy(end.hub, end.ledger, k, end.runs[run].items[k]);
      StoredIsFrom(end.ledger, k, end.runs[run].items[k], input, now, unmoved, unrevived);
    }
  }

  lemma StoredIsFrom(l: Ledger, k: QueueKey, item: Item, input: DeliveryInput, now: int, unmoved: bool, unrevived: bool)
    requires Stored(l, k, item) && l.issued[k.number].message == HubRuns.MessageOf(input)
    requires unmoved ==> k.number !in l.moved && l.issued[k.number].targetAddr == input.targetAddr
    requires unrevived ==> k.number !in l.revived && l.issued[k.number].enqueuedAt == if input.enqueuedAt.Some? then input.enqueuedAt.value else now
    ensures IsFrom(item, input, now, unmoved, unrevived)
  {
  }

  /** How an input reads on the wire after so many sends. */
  predicate Reads(payload: Payload, input: DeliveryInput, sends: nat) {
    if input.render.None? then payload == Verbatim(input.envelope)
    else payload == Rendered(ChannelEnvelope(input.render.value.body, input.render.value.redelivery + sends))
  }

  /**
   What is sent for the number, by whatever dispatch run with whatever copy, is the
   accepted input's text, or its rendering with the counter raised by the sends already
   counted, and what is stored then is still that input.
   */
  lemma WireCarriesInput(
    c: Stale, input: DeliveryInput, routable: bool, now: int, n: nat, steps: seq<Step>, run: nat, key: QueueKey, env: DispatchEnv)
    requires AcceptedAs(c, input, routable, now, n) && PossibleRun(Accepting(c, input, routable, now), steps)
    requires HubStale.Possible(Through(Accepting(c, input, routable, now), steps), Visit(run, key, env)) && key.number == n
    ensures var c1 := Accepting(c, input, routable, now);
            var end := Through(c1, steps);
            var (s', outcome) := DispatchEntry(end.hub, key, end.runs[run].items[key], env);
            outcome.Sent? ==>
              && key in end.hub.queue && Reads(outcome.payload, input, end.hub.queue[key].attempts)
              && key in s'.queue && s'.queue[key].attempts == end.hub.queue[key].attempts + 1 && s'.queue[key].agent == key.agent
              && IsFrom(s'.queue[key], input, now, NeverMoved(c1, steps, n), NeverRevived(c1, steps, n))
  {
    var c1 := Accepting(c, input, routable, now);
    AcceptedIssues(c, input, routable, now, n);
    RunIssues(c1, steps, n);
    NumberBearsInput(c, input, routable, now, n, steps);
    var end := Through(c1, steps);
    assert IsCopy(end.hub, end.ledger, key, end.runs[run].items[key]);
    SentFrom(end.hub, key, end.runs[run].items[key], input, now, NeverMoved(c1, steps, n), NeverRevived(c1, steps, n), env);
  }

  lemma SentFrom(s: HubState, key: QueueKey, item: Item, input: DeliveryInput, now: int, unmoved: bool, unrevived: bool, env: DispatchEnv)
    requires IsFrom(item, input, now, unmoved, unrevived) && item.agent == key.agent
    ensures var (s', outcome) := DispatchEntry(s, key, item, env);
            outcome.Sent? ==>
              && key in s.queue && Reads(outcome.payload, input, s.queue[key].attempts)
              && key in s'.queue && s'.queue[key].attempts == s.queue[key].attempts + 1 && s'.queue[key].agent == key.agent
              && IsFrom(s'.queue[key], input, now, unmoved, unrevived)
  {
  }

  /** An ack of the number's entry reports to the input's room under its number, and, by a transport, to the integration whose delivery it is. */
  lemma AckReportsInput(
    c: Stale, input: DeliveryInput, routable: bool, now: int, n: nat, steps: seq<Step>, m: MarkerKey, via: Option<string>)
    requires AcceptedAs(c, input, routable, now, n) && PossibleRun(Accepting(c, input, routable, now), steps)
    requires var s := Through(Accepting(c, input, routable, now), steps).hub;
             IsQueued(s, m) && s.markers[m].key.number == n && s.markers[m].key in s.queue
    ensures var c1 := Accepting(c, input, routable, now);
            var s := Through(c1, steps).hub;
            var calls := CallsAfterAck(s, Some(m), m.id, via);
            var address := if NeverMoved(c1, steps, n) then input.targetAddr else s.queue[s.markers[m].key].targetAddr;
            && (calls.room.Some? <==> input.roomName.Some? && input.roomSeq.Some?)
            && (calls.room.Some? ==> calls.room.value == RoomCall(input.org, input.roomName.value, address, input.roomSeq.value))
            && (calls.injection.Some? <==> via.Some? && |m.id| >= 4 && m.id[..4] == "dlv_")
            && (calls.injection.Some? ==> calls.injection.value == InjectionCall(input.org, m.id, address, via.value))
  {
    NumberBearsInput(c, input, routable, now, n, steps);
  }

  /** A reader sees the input as it would be sent. */
  lemma InboxShowsInput(
    c: Stale, input: DeliveryInput, routable: bool, now: int, n: nat, steps: seq<Step>, listing: seq<QueueKey>, i: nat)
    requires AcceptedAs(c, input, routable, now, n) && PossibleRun(Accepting(c, input, routable, now), steps)
    requires var s := Through(Accepting(c, input, routable, now), steps).hub;
             i < |listing| && listing[i].number == n && forall k :: k in listing ==> k in s.queue
    ensures var c1 := Accepting(c, input, routable, now);
            var s := Through(c1, steps).hub;
            var shown := InboxView(s, listing)[i];
            && shown.id == input.id && Reads(shown.envelope, input, s.queue[listing[i]].attempts)
            && (NeverRevived(c1, steps, n) ==>
                  shown.enqueuedAt == if input.enqueuedAt.Some? then input.enqueuedAt.value else now)
  {
    NumberBearsInput(c, input, routable, now, n, steps);
    assert listing[i] in listing;
  }

  // ---------------------------------------------------------------- by pair

  /** The pair, followed through renames, is not accepted again. */
  ghost predicate NotReaccepted(c: Stale, steps: seq<Step>, m: MarkerKey)
    requires EnabledRun(c, steps)
    decreases |steps|
  {
    steps == [] || (!(steps[0].Do? && HubRuns.Reaccepts(c.hub, steps[0].op, m)) && NotReaccepted(Next(c, steps[0]), steps[1..], FollowStep(c, steps[0], m)))
  }

  lemma {:induction false} SameContent(c: Stale, steps: seq<Step>, m: MarkerKey, content: HubRuns.Message)
    requires EnabledRun(c, steps) && NotReaccepted(c, steps, m)
    ensures ContentSteps(c, steps, m, content) == content
    decreases |steps|
  {
    if steps != [] {
      SameContent(Next(c, steps[0]), steps[1..], FollowStep(c, steps[0], m), content);
    }
  }

  /**
   The same told by pair: in a run that keeps the invariant and does not accept the pair
   again, whatever is sent for it, under its own or its new name, is the accepted input.
   */
  lemma PairCarriesInput(c: Stale, input: DeliveryInput, routable: bool, now: int, steps: seq<Step>, run: nat, key: QueueKey, env: DispatchEnv)
    requires HubStale.Sound(c) && QueueDelivery(c.hub, input, routable, now).1 == Accepted
    requires var c1 := Accepting(c, input, routable, now);
             && EnabledRun(c1, steps) && CarefulRun(c1, steps) && NotReaccepted(c1, steps, MarkerKey(input.id, input.agent))
             && var end := RunSteps(c1, steps);
                && run in end.runs && key in end.runs[run].items
                && MarkerOf(end.runs[run].items[key]) == FollowSteps(c1, steps, MarkerKey(input.id, input.agent))
    ensures var end := RunSteps(Accepting(c, input, routable, now), steps);
            var (s', outcome) := DispatchEntry(end.hub, key, end.runs[run].items[key], env);
            outcome.Sent? ==>
              key in end.hub.queue && Reads(outcome.payload, input, end.hub.queue[key].attempts)
              && key in s'.queue && IsFrom(s'.queue[key], input, now, false, false)
  {
    var m, c1 := MarkerKey(input.id, input.agent), Accepting(c, input, routable, now);
    StepSound(c, Do(HubRuns.DoQueue(input, routable, now)));
    AcceptedHolds(c, input, routable, now);
    SameContent(c1, steps, m, HubRuns.MessageOf(input));
    StaleRunConserves(c1, steps, m, HubRuns.MessageOf(input));
    RunSound(c1, steps);
    SentIsHeld(RunSteps(c1, steps), FollowSteps(c1, steps, m), input, now, run, key, env);
  }

  lemma AcceptedHolds(c: Stale, input: DeliveryInput, routable: bool, now: int)
    requires HubStale.Sound(c) && QueueDelivery(c.hub, input, routable, now).1 == Accepted
    ensures var m, s := MarkerKey(input.id, input.agent), Accepting(c, input, routable, now).hub;
            m in s.markers && HubRuns.Holds(s, m, HubRuns.MessageOf(input))
  {
  }

  /** What is sent for a pair is what the hub holds for it. */
  lemma SentIsHeld(end: Stale, m: MarkerKey, input: DeliveryInput, now: int, run: nat, key: QueueKey, env: DispatchEnv)
    requires HubStale.Sound(end) && m in end.hub.markers && HubRuns.Holds(end.hub, m, HubRuns.MessageOf(input))
    requires run in end.runs && key in end.runs[run].items && MarkerOf(end.runs[run].items[key]) == m
    ensures var (s', outcome) := DispatchEntry(end.hub, key, end.runs[run].items[key], env);
            outcome.Sent? ==>
              key in end.hub.queue && Reads(outcome.payload, input, end.hub.queue[key].attempts)
              && key in s'.queue && IsFrom(s'.queue[key], input, now, false, false)
  {
    if DispatchEntry(end.hub, key, end.runs[run].items[key], env).1.Sent? {
      StaleCopySendsItsOwn(end, run, key, env);
      assert HubInvariant.EntryMarked(end.hub, key);
      assert HubRuns.Content(end.runs[run].items[key]) == HubRuns.MessageOf(input);
    }
  }
}
