/**
 Whole runs of a host's delivery queue with re-entrant dispatch (src/do/host-hub.ts):
 any number of dispatch runs hold listings taken earlier, act on their copies, and
 every other operation may come in between.
 */
module HubStale {
  import opened Common
  import opened HubModel
  import opened HubInvariant
  import opened HubRename
  import opened HubRuns

  /** A dispatch run works from one listing, and from the instant it was taken. */
  datatype Pass = Pass(now: int, items: map<QueueKey, Item>)

  /** What a number was issued for: the message, where it was addressed, and since when it counts. */
  datatype Issue = Issue(message: Message, targetAddr: string, enqueuedAt: int)

  /** All that was ever issued, and which numbers have since been renamed or brought back from the dead. */
  datatype Ledger = Ledger(issued: map<nat, Issue>, moved: set<nat>, revived: set<nat>)

  /** The hub, its dispatch runs, and what its numbers were issued for. */
  datatype Stale = Stale(hub: HubState, runs: map<nat, Pass>, ledger: Ledger)

  const START: Stale := Stale(EMPTY, map[], Ledger(map[], {}, {}))

  datatype Step =
    | List(run: nat, keys: set<QueueKey>, now: int)
    | Visit(run: nat, key: QueueKey, env: DispatchEnv)
    | Do(op: HubOp)

  predicate Dies(item: Item, env: DispatchEnv) {
    Expired(item, env.now) || Revoked(item, env)
  }

  /** Visits act on copies, however old, at the instant of their listing; storage answers truly. */
  ghost predicate Possible(c: Stale, step: Step) {
    match step
    case List(_, _, _) => true
    case Visit(run, key, env) => run in c.runs && key in c.runs[run].items && env.now == c.runs[run].now
    case Do(op) => HubRuns.Possible(c.hub, op)
  }

  /** A death recorded from a copy is safe, and a rename is one the correspondence survives. */
  ghost predicate Enabled(c: Stale, step: Step) {
    && Possible(c, step)
    && (step.Visit? && Dies(c.runs[step.run].items[step.key], step.env) ==>
          DeathSafe(c.hub, step.key, c.runs[step.run].items[step.key]))
    && (step.Do? ==> Legal(c.hub, step.op))
  }

  ghost function Next(c: Stale, step: Step): Stale
    requires Possible(c, step)
  {
    match step
    case List(run, keys, now) => c.(runs := c.runs[run := Pass(now, map k | k in c.hub.queue && k in keys :: c.hub.queue[k])])
    case Visit(run, key, env) => c.(hub := DispatchEntry(c.hub, key, c.runs[run].items[key], env).0)
    case Do(op) => c.(hub := Apply(c.hub, op), ledger := LedgerAfter(c.hub, c.ledger, op))
  }

  function IssueOf(input: DeliveryInput, now: int): Issue {
    Issue(MessageOf(input), input.targetAddr, if input.enqueuedAt.Some? then input.enqueuedAt.value else now)
  }

  function MovedBy(s: HubState, op: HubOp): set<nat>
    requires op.DoRename?
  {
    set k | k in op.listing && k in s.queue && s.queue[k].agent in op.renames :: k.number
  }

  function LedgerAfter(s: HubState, ledger: Ledger, op: HubOp): Ledger {
    match op
    case DoQueue(input, routable, now) =>
      if QueueDelivery(s, input, routable, now).1 == Accepted
      then ledger.(issued := ledger.issued[s.sequence + 1 := IssueOf(input, now)]) else ledger
    case DoRename(_, _, _) => ledger.(moved := ledger.moved + MovedBy(s, op))
    case DoRequeue(_, r, _) =>
      if r.Some? && r.value in s.markers && s.markers[r.value].Dead?
      then ledger.(revived := ledger.revived + {s.markers[r.value].key.number}) else ledger
    case _ => ledger
  }

  ghost predicate EnabledRun(c: Stale, steps: seq<Step>)
    decreases |steps|
  {
    steps == [] || (Enabled(c, steps[0]) && EnabledRun(Next(c, steps[0]), steps[1..]))
  }

  ghost function RunSteps(c: Stale, steps: seq<Step>): Stale
    requires EnabledRun(c, steps)
    decreases |steps|
  {
    if steps == [] then c else RunSteps(Next(c, steps[0]), steps[1..])
  }

  // ---------------------------------------------------------------- a number means one message

  /** Every entry and every dead letter is the message its number was issued for, under its own recipient and pair. */
  ghost predicate Carries(s: HubState, ledger: Ledger) {
    && (forall k :: k in s.queue ==> Stored(ledger, k, s.queue[k]))
    && (forall m :: m in s.markers && s.markers[m].Dead? ==>
          Stored(ledger, s.markers[m].key, s.markers[m].item) && MarkerOf(s.markers[m].item) == m)
  }

  /** Its address is the one issued until it is renamed, and its age counts from then until it is requeued. */
  predicate Stored(ledger: Ledger, k: QueueKey, item: Item) {
    && item.agent == k.agent && k.number in ledger.issued && Content(item) == ledger.issued[k.number].message
    && (k.number !in ledger.moved ==> item.targetAddr == ledger.issued[k.number].targetAddr)
    && (k.number !in ledger.revived ==> item.enqueuedAt == ledger.issued[k.number].enqueuedAt)
  }

  predicate IsCopy(s: HubState, ledger: Ledger, k: QueueKey, item: Item) {
    Stored(ledger, k, item) && 1 <= k.number <= s.sequence
  }

  ghost predicate WithinSequence(ledger: Ledger, sequence: nat) {
    && (forall n :: n in ledger.issued ==> 1 <= n <= sequence)
    && (forall n :: n in ledger.moved || n in ledger.revived ==> n <= sequence)
  }

  /** Entries, dead letters and copies are the messages their numbers were issued for; a dead letter stands under its own id. */
  ghost predicate Carried(c: Stale) {
    && Carries(c.hub, c.ledger)
    && WithinSequence(c.ledger, c.hub.sequence)
    && (forall run, k :: run in c.runs && k in c.runs[run].items ==> IsCopy(c.hub, c.ledger, k, c.runs[run].items[k]))
  }

  ghost predicate Sound(c: Stale) {
    Inv(c.hub) && Carried(c)
  }

  /** Nothing issued is taken back; numbers are renamed and requeued in addition. */
  ghost predicate Extends(ledger: Ledger, ledger': Ledger) {
    && (forall n :: n in ledger.issued ==> n in ledger'.issued && ledger'.issued[n] == ledger.issued[n])
    && ledger.moved <= ledger'.moved && ledger.revived <= ledger'.revived
  }

  lemma ExtendsCarries(s: HubState, ledger: Ledger, ledger': Ledger)
    requires Carries(s, ledger) && Extends(ledger, ledger')
    ensures Carries(s, ledger')
  {
  }

  lemma {:induction false} RenameCarries(s: HubState, listing: seq<QueueKey>, renames: Renames, slug: string, ledger: Ledger)
    requires (forall k :: k in listing ==> k in s.queue) && Carries(s, ledger)
    requires forall k :: k in listing && s.queue[k].agent in renames ==> k.number in ledger.moved
    ensures Carries(Rename(s, listing, renames, slug), ledger) && Rename(s, listing, renames, slug).sequence == s.sequence
  {
    if listing != [] {
      var n := |listing| - 1;
      assert listing[n] in listing;
      RenameCarries(s, listing[..n], renames, slug, ledger);
    }
  }

  lemma OpCarries(c: Stale, op: HubOp)
    requires Carries(c.hub, c.ledger) && HubRuns.Possible(c.hub, op) && WithinSequence(c.ledger, c.hub.sequence)
    ensures var ledger' := LedgerAfter(c.hub, c.ledger, op);
            && Carries(Apply(c.hub, op), ledger') && Extends(c.ledger, ledger')
            && c.hub.sequence <= Apply(c.hub, op).sequence && WithinSequence(ledger', Apply(c.hub, op).sequence)
  {
    var ledger' := LedgerAfter(c.hub, c.ledger, op);
    match op
    case DoRename(listing, renames, slug) =>
      forall k | k in listing && c.hub.queue[k].agent in renames ensures k.number in ledger'.moved && k.number in c.ledger.issued {
        assert Stored(c.ledger, k, c.hub.queue[k]);
      }
      ExtendsCarries(c.hub, c.ledger, ledger');
      RenameCarries(c.hub, listing, renames, slug, ledger');
    case DoQueue(input, routable, now) => QueueCarries(c, input, routable, now);
    case DoRequeue(_, r, now) => RequeueCarries(c.hub, r, now, c.ledger);
    case _ => OtherOpCarries(c.hub, op, c.ledger);
  }

  lemma QueueCarries(c: Stale, input: DeliveryInput, routable: bool, now: int)
    requires Carries(c.hub, c.ledger) && WithinSequence(c.ledger, c.hub.sequence)
    ensures var ledger' := LedgerAfter(c.hub, c.ledger, DoQueue(input, routable, now));
            var s' := QueueDelivery(c.hub, input, routable, now).0;
            Carries(s', ledger') && Extends(c.ledger, ledger') && WithinSequence(ledger', s'.sequence)
  {
  }

  lemma RequeueCarries(s: HubState, r: Option<MarkerKey>, now: int, ledger: Ledger)
    requires Carries(s, ledger) && (r.Some? ==> r.value in s.markers && s.markers[r.value].Dead?)
    ensures Carries(Requeue(s, r, now), LedgerAfter(s, ledger, DoRequeue("", r, now)))
    ensures WithinSequence(ledger, s.sequence) ==> WithinSequence(LedgerAfter(s, ledger, DoRequeue("", r, now)), s.sequence)
  {
  }

  lemma OtherOpCarries(s: HubState, op: HubOp, ledger: Ledger)
    requires Carries(s, ledger) && HubRuns.Possible(s, op) && !op.DoRename? && !op.DoQueue? && !op.DoRequeue?
    ensures Carries(Apply(s, op), ledger) && Apply(s, op).sequence == s.sequence
  {
    match op
    case DoDispatch(key, env) => VisitCarries(s, key, s.queue[key], env, ledger);
    case DoNak(_, _, r, code, retryable) => NakCarries(s, r, code, retryable, ledger);
    case _ =>
  }

  lemma NakCarries(s: HubState, r: Option<MarkerKey>, code: string, retryable: bool, ledger: Ledger)
    requires Carries(s, ledger) && (r.Some? ==> IsQueued(s, r.value))
    ensures Carries(Nak(s, r, code, retryable), ledger)
  {
  }

  lemma VisitCarries(s: HubState, k: QueueKey, item: Item, env: DispatchEnv, ledger: Ledger)
    requires Carries(s, ledger) && Stored(ledger, k, item)
    ensures Carries(DispatchEntry(s, k, item, env).0, ledger) && DispatchEntry(s, k, item, env).0.sequence == s.sequence
  {
  }

  /** No step storage permits, an unsafe death or a colliding rename included, makes a number mean another message. */
  lemma StepCarried(c: Stale, step: Step)
    requires Carried(c) && Possible(c, step)
    ensures Carried(Next(c, step))
  {
    var c' := Next(c, step);
    match step {
      case List(run, keys, now) =>
      case Visit(run, key, env) =>
        assert IsCopy(c.hub, c.ledger, key, c.runs[run].items[key]);
        VisitCarries(c.hub, key, c.runs[run].items[key], env, c.ledger);
      case Do(op) => OpCarries(c, op);
    }
    forall run, k | run in c'.runs && k in c'.runs[run].items ensures IsCopy(c'.hub, c'.ledger, k, c'.runs[run].items[k]) {
      if run in c.runs && k in c.runs[run].items {
        assert IsCopy(c.hub, c.ledger, k, c.runs[run].items[k]);
      }
    }
  }

  /** A stale copy never sends anything but the message stored under its key, to the recipient it is stored for. */
  lemma StaleCopySendsItsOwn(c: Stale, run: nat, key: QueueKey, env: DispatchEnv)
    requires Sound(c) && run in c.runs && key in c.runs[run].items
    requires DispatchEntry(c.hub, key, c.runs[run].items[key], env).1.Sent?
    ensures key in c.hub.queue
    ensures Content(c.hub.queue[key]) == Content(c.runs[run].items[key]) && MarkerOf(c.hub.queue[key]) == MarkerOf(c.runs[run].items[key])
  {
    assert EntryMarked(c.hub, key) && IsCopy(c.hub, c.ledger, key, c.runs[run].items[key]);
    assert Content(c.hub.queue[key]).id == Content(c.runs[run].items[key]).id;
  }

  lemma VisitKeeps(c: Stale, run: nat, key: QueueKey, env: DispatchEnv)
    requires Sound(c) && Enabled(c, Visit(run, key, env))
    ensures Inv(Next(c, Visit(run, key, env)).hub)
  {
    var item := c.runs[run].items[key];
    assert IsCopy(c.hub, c.ledger, key, item);
    if Dies(item, env) {
      StaleDeathKeepsExact(c.hub, key, item,
        if Expired(item, env.now) then (if item.lastError.Some? then item.lastError.value else "delivery limit exceeded")
        else "organization_connection_revoked");
    } else if DispatchEntry(c.hub, key, item, env).1.Sent? {
      StaleCopySendsItsOwn(c, run, key, env);
      UpdateKeeps(c.hub, key, Attempted(item, env));
    }
  }

  lemma StepSound(c: Stale, step: Step)
    requires Sound(c) && Enabled(c, step)
    ensures Sound(Next(c, step))
  {
    StepCarried(c, step);
    match step
    case List(_, _, _) =>
    case Visit(run, key, env) => VisitKeeps(c, run, key, env);
    case Do(op) => HubRuns.StepKeeps(c.hub, op);
  }

  /**
   Every reachable state of a hub with re-entrant dispatch on stale listings keeps the
   correspondence and the numbering, and each number means one message for ever.
   */
  lemma {:induction false} RunSound(c: Stale, steps: seq<Step>)
    requires Sound(c) && EnabledRun(c, steps)
    ensures Sound(RunSteps(c, steps))
    decreases |steps|
  {
    if steps != [] {
      StepSound(c, steps[0]);
      RunSound(Next(c, steps[0]), steps[1..]);
    }
  }

  lemma ReachableSound(steps: seq<Step>)
    requires EnabledRun(START, steps)
    ensures Sound(RunSteps(START, steps))
  {
    EmptyInv();
    RunSound(START, steps);
  }

  /** A safe death is also needed: one that is not breaks the invariant there and then. */
  lemma UnsafeVisitBreaks(c: Stale, run: nat, key: QueueKey, env: DispatchEnv)
    requires Sound(c) && run in c.runs && key in c.runs[run].items && Dies(c.runs[run].items[key], env)
    ensures Inv(DispatchEntry(c.hub, key, c.runs[run].items[key], env).0) <==> DeathSafe(c.hub, key, c.runs[run].items[key])
  {
    var item := c.runs[run].items[key];
    assert IsCopy(c.hub, c.ledger, key, item);
    StaleDeathKeepsExact(c.hub, key, item,
      if Expired(item, env.now) then (if item.lastError.Some? then item.lastError.value else "delivery limit exceeded")
      else "organization_connection_revoked");
  }

  // ---------------------------------------------------------------- nothing accepted is lost

  /** Nobody else has settled the copied entry, or it died as the same message already. */
  predicate DeathHarmless(s: HubState, k: QueueKey, item: Item) {
    var m := MarkerOf(item);
    k in s.queue || (m in s.markers ==> s.markers[m].Dead? && Content(s.markers[m].item) == Content(item))
  }

  /** Every pair holds what it held, and what was injected still is. */
  ghost predicate Kept(s: HubState, s': HubState) {
    forall m, content :: m in s.markers && Holds(s, m, content) ==>
      m in s'.markers && Holds(s', m, content) && (s.markers[m].Injected? ==> s'.markers[m].Injected?)
  }

  /** What a safe death from a copy does: it loses or revives nothing exactly when it is harmless. */
  lemma StaleDeathConservesExact(s: HubState, k: QueueKey, item: Item, error: string)
    requires Inv(s) && DeathSafe(s, k, item) && (k in s.queue ==> Content(s.queue[k]) == Content(item))
    ensures Kept(s, MarkDead(s, k, item, error)) <==> DeathHarmless(s, k, item)
  {
    var s' := MarkDead(s, k, item, error);
    var m := MarkerOf(item);
    if DeathHarmless(s, k, item) {
      forall m', content | m' in s.markers && Holds(s, m', content)
        ensures m' in s'.markers && Holds(s', m', content) && (s.markers[m'].Injected? ==> s'.markers[m'].Injected?)
      {
        if s.markers[m'].Queued? {
          assert MarkerBacked(s, m');
        }
        if k in s.queue {
          assert EntryMarked(s, k);
        }
      }
    } else {
      var content := if s.markers[m].Dead? then Content(s.markers[m].item) else Content(item);
      assert Holds(s, m, content);
    }
  }

  /** Deaths from copies are harmless, and renames write over no finished pair. */
  ghost predicate Careful(c: Stale, step: Step)
    requires Enabled(c, step)
  {
    match step
    case List(_, _, _) => true
    case Visit(run, key, env) => Dies(c.runs[run].items[key], env) ==> DeathHarmless(c.hub, key, c.runs[run].items[key])
    case Do(op) => Gentle(c.hub, op)
  }

  ghost predicate CarefulRun(c: Stale, steps: seq<Step>)
    requires EnabledRun(c, steps)
    decreases |steps|
  {
    steps == [] || (Careful(c, steps[0]) && CarefulRun(Next(c, steps[0]), steps[1..]))
  }

  ghost function FollowStep(c: Stale, step: Step, m: MarkerKey): MarkerKey {
    if step.Do? then Follow(c.hub, step.op, m) else m
  }

  ghost function ContentStep(c: Stale, step: Step, m: MarkerKey, content: Message): Message {
    if step.Do? then ContentAfter(c.hub, step.op, m, content) else content
  }

  ghost function FollowSteps(c: Stale, steps: seq<Step>, m: MarkerKey): MarkerKey
    requires EnabledRun(c, steps)
    decreases |steps|
  {
    if steps == [] then m else FollowSteps(Next(c, steps[0]), steps[1..], FollowStep(c, steps[0], m))
  }

  ghost function ContentSteps(c: Stale, steps: seq<Step>, m: MarkerKey, content: Message): Message
    requires EnabledRun(c, steps)
    decreases |steps|
  {
    if steps == [] then content
    else ContentSteps(Next(c, steps[0]), steps[1..], FollowStep(c, steps[0], m), ContentStep(c, steps[0], m, content))
  }

  lemma VisitConserves(c: Stale, run: nat, key: QueueKey, env: DispatchEnv, m: MarkerKey, content: Message)
    requires Sound(c) && Enabled(c, Visit(run, key, env)) && Careful(c, Visit(run, key, env))
    requires m in c.hub.markers && Holds(c.hub, m, content)
    ensures var s' := Next(c, Visit(run, key, env)).hub; m in s'.markers && Holds(s', m, content)
  {
    var item := c.runs[run].items[key];
    assert IsCopy(c.hub, c.ledger, key, item);
    if Dies(item, env) {
      var error := if Expired(item, env.now) then (if item.lastError.Some? then item.lastError.value else "delivery limit exceeded")
                   else "organization_connection_revoked";
      StaleDeathConservesExact(c.hub, key, item, error);
      assert Kept(c.hub, MarkDead(c.hub, key, item, error));
    } else if DispatchEntry(c.hub, key, item, env).1.Sent? {
      StaleCopySendsItsOwn(c, run, key, env);
    }
  }

  /**
   Over any such run an accepted pair always has its marker, under its own or its new
   name, and until it is injected the hub still holds the very message accepted for it.
   */
  lemma {:induction false} StaleRunConserves(c: Stale, steps: seq<Step>, m: MarkerKey, content: Message)
    requires Sound(c) && EnabledRun(c, steps) && CarefulRun(c, steps)
    requires m in c.hub.markers && Holds(c.hub, m, content)
    ensures FollowSteps(c, steps, m) in RunSteps(c, steps).hub.markers
    ensures Holds(RunSteps(c, steps).hub, FollowSteps(c, steps, m), ContentSteps(c, steps, m, content))
    decreases |steps|
  {
    if steps != [] {
      var step := steps[0];
      StepSound(c, step);
      match step {
        case List(_, _, _) =>
        case Visit(run, key, env) => VisitConserves(c, run, key, env, m, content);
        case Do(op) => StepConserves(c.hub, op, m, content);
      }
      StaleRunConserves(Next(c, step), steps[1..], FollowStep(c, step, m), ContentStep(c, step, m, content));
    }
  }

  // ---------------------------------------------------------------- what an unsafe or harmful death does

  /** One message queued for one agent, and a dispatch run that has listed it. */
  function Listed(id: string, agent: string): seq<Step> {
    [Do(DoQueue(Note(id, agent), true, 0)), List(0, {QueueKey(agent, 1)}, DELIVERY_TTL_MS)]
  }

  const LATE: DispatchEnv := DispatchEnv(DELIVERY_TTL_MS, true, true, None)

  function Copy(id: string, agent: string): Item {
    NewItem(Note(id, agent), 0)
  }

  function OneEntry(id: string, agent: string): HubState {
    HubState(1, map[QueueKey(agent, 1) := Copy(id, agent)], map[MarkerKey(id, agent) := Queued(QueueKey(agent, 1))])
  }

  /** The same entry after its recipient was renamed. */
  function OneMoved(id: string, a: string, b: string): HubState {
    HubState(1, map[QueueKey(b, 1) := MovedItem(Copy(id, a), b, "box")], map[MarkerKey(id, b) := Queued(QueueKey(b, 1))])
  }

  lemma OneStep(c: Stale, step: Step)
    requires Enabled(c, step)
    ensures EnabledRun(c, [step]) && RunSteps(c, [step]) == Next(c, step)
  {
    assert [step][1..] == [];
  }

  lemma ListedReached(id: string, agent: string)
    ensures EnabledRun(START, Listed(id, agent))
    ensures var c := RunSteps(START, Listed(id, agent));
            && c.hub == OneEntry(id, agent)
            && 0 in c.runs && QueueKey(agent, 1) in c.runs[0].items && c.runs[0].items[QueueKey(agent, 1)] == Copy(id, agent)
            && Sound(c)
  {
    var steps := Listed(id, agent);
    var c1 := Next(START, steps[0]);
    assert steps[1..] == [steps[1]];
    OneStep(c1, steps[1]);
    ReachableSound(steps);
  }

  lemma OneRenamed(id: string, a: string, b: string)
    requires a != b && Inv(OneEntry(id, a))
    ensures var rename := DoRename([QueueKey(a, 1)], map[a := b], "box");
            Legal(OneEntry(id, a), rename) && Apply(OneEntry(id, a), rename) == OneMoved(id, a, b)
    ensures Inv(OneMoved(id, a, b))
  {
    var s, k := OneEntry(id, a), QueueKey(a, 1);
    assert [k][..0] == [];
    assert Rename(s, [k], map[a := b], "box") == Move(s, k, Copy(id, a), b, "box");
    assert Move(s, k, Copy(id, a), b, "box").queue == OneMoved(id, a, b).queue;
    RenameKeeps(s, [k], map[a := b], "box");
  }

  lemma MovedDeath(id: string, a: string, b: string)
    requires a != b && Inv(OneMoved(id, a, b))
    ensures var dead := DispatchEntry(OneMoved(id, a, b), QueueKey(a, 1), Copy(id, a), LATE).0;
            && Corresponds(dead) && !Inv(dead)
            && dead.queue == OneMoved(id, a, b).queue
            && dead.markers.Keys == {MarkerKey(id, a), MarkerKey(id, b)}
            && dead.markers[MarkerKey(id, a)].Dead? && dead.markers[MarkerKey(id, b)].Queued?
            && dead.markers[MarkerKey(id, a)].key == QueueKey(a, 1) && dead.markers[MarkerKey(id, a)].item.id == id
  {
    StaleDeathExact(OneMoved(id, a, b), QueueKey(a, 1), Copy(id, a), "delivery limit exceeded");
    StaleDeathKeepsExact(OneMoved(id, a, b), QueueKey(a, 1), Copy(id, a), "delivery limit exceeded");
  }

  /**
   The recipient is renamed while a dispatch run still holds its expired entry: the
   death leaves the correspondence intact but not the invariant, and bringing the dead
   letter back queues the message under both names.
   */
  lemma StaleDeathAfterRename(a: string, b: string, id: string)
    requires a != b
    ensures EnabledRun(START, Listed(id, a))
    ensures var hub := RunSteps(START, Listed(id, a)).hub;
            var rename := DoRename([QueueKey(a, 1)], map[a := b], "box");
            && Legal(hub, rename)
            && var dead := DispatchEntry(Apply(hub, rename), QueueKey(a, 1), Copy(id, a), LATE).0;
               && Corresponds(dead) && !Inv(dead)
               && FirstDead(dead, id, Some(MarkerKey(id, a)))
               && var twice := Requeue(dead, Some(MarkerKey(id, a)), LATE.now);
                  && QueueKey(a, 1) in twice.queue && twice.queue[QueueKey(a, 1)].id == id
                  && QueueKey(b, 1) in twice.queue && twice.queue[QueueKey(b, 1)].id == id
  {
    ListedReached(id, a);
    OneRenamed(id, a, b);
    MovedDeath(id, a, b);
  }

  /** The message is acked while a dispatch run still holds its expired entry: the death is safe, and revives a settled message. */
  lemma StaleDeathAfterAck(a: string, id: string)
    ensures EnabledRun(START, Listed(id, a))
    ensures var c := RunSteps(START, Listed(id, a));
            var m := MarkerKey(id, a);
            && Resolves(c.hub, id, Some(a), Some(m))
            && var acked := Ack(c.hub, Some(m));
               && acked.markers[m].Injected? && DeathSafe(acked, QueueKey(a, 1), Copy(id, a))
               && var dead := DispatchEntry(acked, QueueKey(a, 1), Copy(id, a), LATE).0;
                  && FirstDead(dead, id, Some(m)) && IsQueued(Requeue(dead, Some(m), LATE.now), m)
  {
    ListedReached(id, a);
  }
}
