/**
 How often one queue entry can be claimed for sending (src/do/host-hub.ts).

 `dispatchQueued` is re-entrant: any number of runs work from listings taken
 earlier, and while a run awaits D1 or an RPC every other operation may intervene.
 Here each run carries its own snapshot, each visited entry acts with the
 snapshot's copy, and nothing is assumed about how the two relate.
 */
module HubClaims {
  import opened Common
  import opened HubModel
  import opened HubRename

  datatype Counted = Counted(
    hub: HubState,
    runs: map<nat, map<QueueKey, Item>>,  // the listing each dispatch run holds
    claims: map<QueueKey, nat>,           // sends claimed in the entry's current queue life
    holds: map<QueueKey, nat>)            // draft_busy holds accepted in it

  const START: Counted := Counted(EMPTY, map[], map[], map[])

  datatype Step =
    | List(run: nat, keys: set<QueueKey>)
    | Visit(run: nat, key: QueueKey, env: DispatchEnv)
    | Accept(input: DeliveryInput, routable: bool, now: int)
    | TakeAck(marker: MarkerKey)
    | TakeNak(marker: MarkerKey, code: string, retryable: bool)
    | TakeCancel(id: string)
    | TakeRequeue(marker: MarkerKey, now: int)
    | TakeRename(listing: seq<QueueKey>, renames: Renames, slug: string)

  predicate Enabled(c: Counted, step: Step) {
    match step
    case Visit(run, key, _) => run in c.runs && key in c.runs[run]
    case TakeAck(m) => IsQueued(c.hub, m)
    case TakeNak(m, _, _) => IsQueued(c.hub, m)
    case TakeRequeue(m, _) => m in c.hub.markers && c.hub.markers[m].Dead?
    case TakeRename(listing, _, _) => forall k :: k in listing ==> k in c.hub.queue
    case _ => true
  }

  function CountOf(counts: map<QueueKey, nat>, k: QueueKey): nat {
    if k in counts then counts[k] else 0
  }

  /** A queue life of `k` begins. */
  function Reset(c: Counted, k: QueueKey): Counted {
    c.(claims := c.claims[k := 0], holds := c.holds[k := 0])
  }

  predicate AcceptsHold(s: HubState, m: MarkerKey, code: string, retryable: bool)
    requires IsQueued(s, m)
  {
    s.markers[m].key in s.queue && retryable && code == "draft_busy"
  }

  function Next(c: Counted, step: Step): Counted
    requires Enabled(c, step)
  {
    match step
    case List(run, keys) =>
      c.(runs := c.runs[run := map k | k in c.hub.queue && k in keys :: c.hub.queue[k]])
    case Visit(run, key, env) =>
      var (hub', outcome) := DispatchEntry(c.hub, key, c.runs[run][key], env);
      var c' := c.(hub := hub');
      if outcome.Sent? then c'.(claims := c.claims[key := CountOf(c.claims, key) + 1]) else c'
    case Accept(input, routable, now) =>
      var (hub', status) := QueueDelivery(c.hub, input, routable, now);
      if status.Accepted? then Reset(c.(hub := hub'), QueueKey(input.agent, hub'.sequence)) else c
    case TakeAck(m) => c.(hub := Ack(c.hub, Some(m)))
    case TakeNak(m, code, retryable) =>
      var c' := c.(hub := Nak(c.hub, Some(m), code, retryable));
      if AcceptsHold(c.hub, m, code, retryable)
      then c'.(holds := c.holds[c.hub.markers[m].key := CountOf(c.holds, c.hub.markers[m].key) + 1])
      else c'
    case TakeCancel(id) => c.(hub := Cancel(c.hub, id))
    case TakeRequeue(m, now) => Reset(c.(hub := Requeue(c.hub, Some(m), now)), c.hub.markers[m].key)
    case TakeRename(listing, renames, slug) => CountRename(c, listing, renames, slug)
  }

  /** A renamed entry keeps its life, and its counts, under its new key. */
  function CountRename(c: Counted, listing: seq<QueueKey>, renames: Renames, slug: string): (c': Counted)
    requires forall k :: k in listing ==> k in c.hub.queue
    ensures c'.hub == Rename(c.hub, listing, renames, slug)
  {
    if listing == [] then c
    else
      var n := |listing| - 1;
      var k := listing[n];
      var item := c.hub.queue[k];
      var c0 := CountRename(c, listing[..n], renames, slug);
      var hub' := RenameOne(c0.hub, k, item, renames, slug);
      if item.agent !in renames then c0.(hub := hub')
      else
        var k' := MovedKey(k, item, renames[item.agent]);
        c0.(hub := hub', claims := c0.claims[k' := CountOf(c.claims, k)], holds := c0.holds[k' := CountOf(c.holds, k)])
  }

  /** Every claim is paid for by a stored attempt or by a hold that gave one back. */
  ghost predicate Paid(c: Counted) {
    && (forall k :: k in c.hub.queue ==>
          && c.hub.queue[k].attempts <= MAX_DELIVERY_ATTEMPTS
          && CountOf(c.claims, k) <= c.hub.queue[k].attempts + CountOf(c.holds, k))
    && (forall k :: k in c.claims ==> c.claims[k] <= MAX_DELIVERY_ATTEMPTS + CountOf(c.holds, k))
  }

  lemma NextPaid(c: Counted, step: Step)
    requires Paid(c) && Enabled(c, step)
    ensures Paid(Next(c, step))
  {
    match step
    case TakeRename(listing, renames, slug) => RenamePaid(c, listing, renames, slug);
    case Visit(run, key, env) => VisitPaid(c, run, key, env);
    case TakeNak(m, code, retryable) => NakPaid(c, m, code, retryable);
    case Accept(input, routable, now) => AcceptPaid(c, input, routable, now);
    case TakeRequeue(m, now) => RequeuePaid(c, m, now);
    case _ =>
  }

  lemma AcceptPaid(c: Counted, input: DeliveryInput, routable: bool, now: int)
    requires Paid(c)
    ensures Paid(Next(c, Accept(input, routable, now)))
  {
  }

  lemma RequeuePaid(c: Counted, m: MarkerKey, now: int)
    requires Paid(c) && Enabled(c, TakeRequeue(m, now))
    ensures Paid(Next(c, TakeRequeue(m, now)))
  {
  }

  /** A hold gives one attempt back and is counted. */
  lemma NakPaid(c: Counted, m: MarkerKey, code: string, retryable: bool)
    requires Paid(c) && Enabled(c, TakeNak(m, code, retryable))
    ensures Paid(Next(c, TakeNak(m, code, retryable)))
  {
  }

  /** The claim: a stale copy goes out only if its attempt count is still the stored one. */
  lemma VisitPaid(c: Counted, run: nat, key: QueueKey, env: DispatchEnv)
    requires Paid(c) && Enabled(c, Visit(run, key, env))
    ensures Paid(Next(c, Visit(run, key, env)))
  {
    var item := c.runs[run][key];
    var (hub', outcome) := DispatchEntry(c.hub, key, item, env);
    if outcome.Sent? {
      assert c.hub.queue[key].attempts == item.attempts < MAX_DELIVERY_ATTEMPTS;
    }
  }

  lemma {:induction false} RenamePaid(c: Counted, listing: seq<QueueKey>, renames: Renames, slug: string)
    requires Paid(c) && forall k :: k in listing ==> k in c.hub.queue
    ensures Paid(CountRename(c, listing, renames, slug))
  {
    if listing != [] {
      var n := |listing| - 1;
      assert listing[n] in listing;
      RenamePaid(c, listing[..n], renames, slug);
    }
  }

  ghost predicate EnabledRun(c: Counted, steps: seq<Step>)
    decreases |steps|
  {
    steps == [] || (Enabled(c, steps[0]) && EnabledRun(Next(c, steps[0]), steps[1..]))
  }

  ghost function RunSteps(c: Counted, steps: seq<Step>): Counted
    requires EnabledRun(c, steps)
    decreases |steps|
  {
    if steps == [] then c else RunSteps(Next(c, steps[0]), steps[1..])
  }

  lemma {:induction false} RunPaid(c: Counted, steps: seq<Step>)
    requires Paid(c) && EnabledRun(c, steps)
    ensures Paid(RunSteps(c, steps))
    decreases |steps|
  {
    if steps != [] {
      NextPaid(c, steps[0]);
      RunPaid(Next(c, steps[0]), steps[1..]);
    }
  }

  /**
   Under any interleaving of dispatch runs on stale listings with every other
   operation, the stored attempt count never exceeds 40 and an entry is claimed at
   most 40 plus the number of accepted holds times in one queue life.
   */
  lemma SendsBounded(steps: seq<Step>, k: QueueKey)
    requires EnabledRun(START, steps)
    ensures var c := RunSteps(START, steps);
            && (k in c.hub.queue ==> c.hub.queue[k].attempts <= 40)
            && CountOf(c.claims, k) <= 40 + CountOf(c.holds, k)
  {
    RunPaid(START, steps);
  }

  // ---------------------------------------------------------------- when one copy can be sent twice

  /** Back to back, two runs holding the same copy of an entry cannot both send it. */
  lemma SameCopySentOnce(s: HubState, k: QueueKey, item: Item, env: DispatchEnv, env': DispatchEnv)
    requires DispatchEntry(s, k, item, env).1.Sent?
    ensures !DispatchEntry(DispatchEntry(s, k, item, env).0, k, item, env').1.Sent?
  {
  }

  predicate Moves(s: HubState, listing: seq<QueueKey>, renames: Renames, k: QueueKey) {
    k in listing && k in s.queue && s.queue[k].agent in renames
  }

  function MovedTo(s: HubState, listing: seq<QueueKey>, renames: Renames, k: QueueKey): QueueKey {
    if Moves(s, listing, renames, k) then MovedKey(k, s.queue[k], renames[s.queue[k].agent]) else k
  }

  /** Where an entry is after the step: a rename may move it. */
  function FollowKey(c: Counted, step: Step, k: QueueKey): QueueKey {
    if step.TakeRename? then MovedTo(c.hub, step.listing, step.renames, k) else k
  }

  /** The step begins another queue life under the key the entry has afterwards. */
  ghost predicate Begins(c: Counted, step: Step, k: QueueKey)
    requires Enabled(c, step)
  {
    match step
    case Accept(input, routable, now) =>
      && QueueDelivery(c.hub, input, routable, now).1.Accepted?
      && QueueKey(input.agent, QueueDelivery(c.hub, input, routable, now).0.sequence) == k
    case TakeRequeue(m, _) => c.hub.markers[m].key == k
    case TakeRename(listing, renames, _) =>
      exists j :: j != k && Moves(c.hub, listing, renames, j)
                  && MovedTo(c.hub, listing, renames, j) == MovedTo(c.hub, listing, renames, k)
    case _ => false
  }

  /** No other life begins under the entry's key during the run. */
  ghost predicate OneLife(c: Counted, steps: seq<Step>, k: QueueKey)
    requires EnabledRun(c, steps)
    decreases |steps|
  {
    steps == [] || (!Begins(c, steps[0], k) && OneLife(Next(c, steps[0]), steps[1..], FollowKey(c, steps[0], k)))
  }

  ghost function FollowKeys(c: Counted, steps: seq<Step>, k: QueueKey): QueueKey
    requires EnabledRun(c, steps)
    decreases |steps|
  {
    if steps == [] then k else FollowKeys(Next(c, steps[0]), steps[1..], FollowKey(c, steps[0], k))
  }

  /** The stored attempts and the holds that gave some back together reach the mark. */
  ghost predicate Reaches(c: Counted, k: QueueKey, mark: nat) {
    k in c.hub.queue ==> mark <= c.hub.queue[k].attempts + CountOf(c.holds, k)
  }

  lemma {:induction false} RenameReaches(c: Counted, listing: seq<QueueKey>, renames: Renames, slug: string, k: QueueKey, to: QueueKey, mark: nat)
    requires (forall j :: j in listing ==> j in c.hub.queue) && Reaches(c, k, mark)
    requires to == k || (k in c.hub.queue && c.hub.queue[k].agent in renames
                         && to == MovedKey(k, c.hub.queue[k], renames[c.hub.queue[k].agent]))
    requires forall j :: j in listing && j != k && c.hub.queue[j].agent in renames ==>
               MovedKey(j, c.hub.queue[j], renames[c.hub.queue[j].agent]) != to
    requires to == k ==> !Moves(c.hub, listing, renames, k) || MovedTo(c.hub, listing, renames, k) == k
    ensures to == k || k in listing ==> Reaches(CountRename(c, listing, renames, slug), to, mark)
    decreases |listing|
  {
    if listing != [] {
      var n := |listing| - 1;
      assert listing == listing[..n] + [listing[n]];
      RenameReaches(c, listing[..n], renames, slug, k, to, mark);
    }
  }

  lemma VisitReaches(c: Counted, run: nat, key: QueueKey, env: DispatchEnv, k: QueueKey, mark: nat)
    requires Enabled(c, Visit(run, key, env)) && Reaches(c, k, mark)
    ensures Reaches(Next(c, Visit(run, key, env)), k, mark)
  {
    var item := c.runs[run][key];
    var (hub', outcome) := DispatchEntry(c.hub, key, item, env);
    assert k in hub'.queue && k != key ==> k in c.hub.queue && hub'.queue[k] == c.hub.queue[k];
    assert key in hub'.queue ==> key in c.hub.queue && c.hub.queue[key].attempts <= hub'.queue[key].attempts;
  }

  lemma NakReaches(c: Counted, m: MarkerKey, code: string, retryable: bool, k: QueueKey, mark: nat)
    requires Enabled(c, TakeNak(m, code, retryable)) && Reaches(c, k, mark)
    ensures Reaches(Next(c, TakeNak(m, code, retryable)), k, mark)
  {
  }

  lemma BeginningReaches(c: Counted, step: Step, k: QueueKey, mark: nat)
    requires (step.Accept? || step.TakeRequeue?) && Enabled(c, step) && Reaches(c, k, mark) && !Begins(c, step, k)
    ensures Reaches(Next(c, step), k, mark)
  {
  }

  lemma StepReaches(c: Counted, step: Step, k: QueueKey, mark: nat)
    requires Enabled(c, step) && Reaches(c, k, mark) && !Begins(c, step, k)
    ensures Reaches(Next(c, step), FollowKey(c, step, k), mark)
  {
    match step
    case TakeRename(listing, renames, slug) =>
      forall j | j in listing && j != k && c.hub.queue[j].agent in renames
        ensures MovedKey(j, c.hub.queue[j], renames[c.hub.queue[j].agent]) != MovedTo(c.hub, listing, renames, k)
      {
        assert Moves(c.hub, listing, renames, j);
      }
      RenameReaches(c, listing, renames, slug, k, MovedTo(c.hub, listing, renames, k), mark);
    case Visit(run, key, env) => VisitReaches(c, run, key, env, k, mark);
    case TakeNak(m, code, retryable) => NakReaches(c, m, code, retryable, k, mark);
    case Accept(_, _, _) => BeginningReaches(c, step, k, mark);
    case TakeRequeue(_, _) => BeginningReaches(c, step, k, mark);
    case _ =>
  }

  lemma {:induction false} RunReaches(c: Counted, steps: seq<Step>, k: QueueKey, mark: nat)
    requires EnabledRun(c, steps) && Reaches(c, k, mark) && OneLife(c, steps, k)
    ensures Reaches(RunSteps(c, steps), FollowKeys(c, steps, k), mark)
    decreases |steps|
  {
    if steps != [] {
      StepReaches(c, steps[0], k, mark);
      RunReaches(Next(c, steps[0]), steps[1..], FollowKey(c, steps[0], k), mark);
    }
  }

  predicate Sends(c: Counted, run: nat, key: QueueKey, env: DispatchEnv) {
    run in c.runs && key in c.runs[run] && DispatchEntry(c.hub, key, c.runs[run][key], env).1.Sent?
  }

  /**
   Whatever happens in between, the same copy of an entry is sent twice in one queue
   life only if a draft hold of the entry was accepted after the first time.
   */
  lemma SameCopyNeedsHold(
    c: Counted, key: QueueKey, run: nat, env: DispatchEnv, steps: seq<Step>, run': nat, env': DispatchEnv)
    requires Sends(c, run, key, env)
    requires var c1 := Next(c, Visit(run, key, env)); EnabledRun(c1, steps) && OneLife(c1, steps, key)
    requires var c2 := RunSteps(Next(c, Visit(run, key, env)), steps);
             && Sends(c2, run', key, env') && c2.runs[run'][key] == c.runs[run][key]
             && FollowKeys(Next(c, Visit(run, key, env)), steps, key) == key
    ensures var c1 := Next(c, Visit(run, key, env));
            CountOf(c1.holds, key) < CountOf(RunSteps(c1, steps).holds, key)
  {
    var c1 := Next(c, Visit(run, key, env));
    RunReaches(c1, steps, key, c.runs[run][key].attempts + 1 + CountOf(c1.holds, key));
  }

  const NOW: DispatchEnv := DispatchEnv(0, true, true, None)

  /** Two dispatch runs list one new entry, the first sends it, and the agent holds it for a draft. */
  function HeldBetween(id: string, agent: string): seq<Step> {
    var k := QueueKey(agent, 1);
    [Visit(0, k, NOW)] + ([TakeNak(MarkerKey(id, agent), "draft_busy", true)] + ([Visit(1, k, NOW)] + []))
  }

  function ListedTwice(id: string, agent: string): Counted {
    var k, m := QueueKey(agent, 1), MarkerKey(id, agent);
    var item := NewItem(Note(id, agent), 0);
    Counted(HubState(1, map[k := item], map[m := Queued(k)]), map[0 := map[k := item], 1 := map[k := item]], map[k := 0], map[k := 0])
  }

  lemma FirstThenRest(c: Counted, step: Step, rest: seq<Step>)
    requires Enabled(c, step) && EnabledRun(Next(c, step), rest)
    ensures EnabledRun(c, [step] + rest) && RunSteps(c, [step] + rest) == RunSteps(Next(c, step), rest)
  {
    assert ([step] + rest)[0] == step && ([step] + rest)[1..] == rest;
  }

  lemma ListedTwiceReached(id: string, agent: string)
    ensures var keys := {QueueKey(agent, 1)};
            var steps := [Accept(Note(id, agent), true, 0)] + ([List(0, keys)] + ([List(1, keys)] + []));
            EnabledRun(START, steps) && RunSteps(START, steps) == ListedTwice(id, agent)
  {
    var keys := {QueueKey(agent, 1)};
    var c1 := Next(START, Accept(Note(id, agent), true, 0));
    var c2 := Next(c1, List(0, keys));
    var end := Next(c2, List(1, keys));
    assert c1.hub == ListedTwice(id, agent).hub;
    assert c1.claims == ListedTwice(id, agent).claims && c1.holds == ListedTwice(id, agent).holds;
    assert c2.runs[0] == ListedTwice(id, agent).runs[0] && end.runs[1] == ListedTwice(id, agent).runs[1];
    assert end.runs == ListedTwice(id, agent).runs;
    FirstThenRest(c2, List(1, keys), []);
    FirstThenRest(c1, List(0, keys), [List(1, keys)] + []);
    FirstThenRest(START, Accept(Note(id, agent), true, 0), [List(0, keys)] + ([List(1, keys)] + []));
  }

  /** It does happen: the hold gives the attempt back, and the second run's copy is sent too. */
  lemma HoldAllowsSameCopy(id: string, agent: string)
    ensures var c, k := ListedTwice(id, agent), QueueKey(agent, 1);
            && c.runs[0][k] == c.runs[1][k]
            && EnabledRun(c, HeldBetween(id, agent)) && CountOf(RunSteps(c, HeldBetween(id, agent)).claims, k) == 2
  {
    var c, k, m := ListedTwice(id, agent), QueueKey(agent, 1), MarkerKey(id, agent);
    var c1 := Next(c, Visit(0, k, NOW));
    assert CountOf(c1.claims, k) == 1;
    var c2 := Next(c1, TakeNak(m, "draft_busy", true));
    assert c2.runs == c.runs && c2.hub.queue[k].attempts == 0 && CountOf(c2.claims, k) == 1;
    FirstThenRest(c2, Visit(1, k, NOW), []);
    FirstThenRest(c1, TakeNak(m, "draft_busy", true), [Visit(1, k, NOW)] + []);
    FirstThenRest(c, Visit(0, k, NOW), [TakeNak(m, "draft_busy", true)] + ([Visit(1, k, NOW)] + []));
  }
}
