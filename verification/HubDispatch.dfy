/**
 One pass of `dispatchQueued` over a fresh listing (src/do/host-hub.ts) and the
 alarm it leaves behind.
 */
module HubDispatch {
  import opened Common
  import opened AlarmBudget
  import opened HubModel
  import opened HubInvariant
  import opened HubRename

  /** Storage order of `q:agent:number` keys. */
  predicate StoredBefore(a: QueueKey, b: QueueKey) {
    if a.agent == b.agent then a.number < b.number
    else Before(CodeUnits(a.agent + ":"), CodeUnits(b.agent + ":"))
  }

  /** The first QUEUE_BATCH_SIZE entries in storage order. */
  ghost predicate IsBatch(s: HubState, listing: seq<QueueKey>) {
    && (forall k :: k in listing ==> k in s.queue)
    && (forall i, j :: 0 <= i < j < |listing| ==> listing[i] != listing[j] && StoredBefore(listing[i], listing[j]))
    && |listing| <= QUEUE_BATCH_SIZE
    && (forall k :: k in s.queue && k !in listing ==>
          |listing| == QUEUE_BATCH_SIZE && forall l :: l in listing ==> StoredBefore(l, k))
  }

  function NextWake(next: Option<int>, outcome: DispatchOutcome): Option<int> {
    match outcome
    case Waiting(wakeAt) => Earlier(next, wakeAt)
    case Sent(_, retryAt) => Earlier(next, retryAt)
    case _ => next
  }

  /** The loop: the hub after the pass and the earliest wake-up it noted. */
  function Pass(s: HubState, listing: seq<QueueKey>, envs: seq<DispatchEnv>): (HubState, Option<int>)
    requires |envs| == |listing| && forall k :: k in listing ==> k in s.queue
  {
    if listing == [] then (s, None)
    else
      var n := |listing| - 1;
      var (s0, next) := Pass(s, listing[..n], envs[..n]);
      var (s', outcome) := DispatchEntry(s0, listing[n], s.queue[listing[n]], envs[n]);
      (s', NextWake(next, outcome))
  }

  /** When the alarm should next look at a stored entry. */
  function WakeAt(item: Item, env: DispatchEnv): int {
    if env.accepts then DueAt(item, env.now) else item.enqueuedAt + DELIVERY_TTL_MS
  }

  /** A wake-up is the earliest instant at which any listed entry that remains needs one. */
  ghost predicate IsEarliestWake(s: HubState, listing: seq<QueueKey>, envs: seq<DispatchEnv>, next: Option<int>)
    requires |envs| == |listing|
  {
    if next.None? then
      forall i :: 0 <= i < |listing| ==> listing[i] !in s.queue
    else
      && (forall i :: 0 <= i < |listing| && listing[i] in s.queue ==> next.value <= WakeAt(s.queue[listing[i]], envs[i]))
      && (exists i :: 0 <= i < |listing| && listing[i] in s.queue && next.value == WakeAt(s.queue[listing[i]], envs[i]))
  }

  /** The retry time computed when sending is the due time the next pass recomputes. */
  lemma SendAgreesWithDue(s: HubState, k: QueueKey, env: DispatchEnv, later: int)
    requires k in s.queue && DispatchEntry(s, k, s.queue[k], env).1.Sent?
    ensures var (s', outcome) := DispatchEntry(s, k, s.queue[k], env);
            && k in s'.queue
            && outcome.retryAt == DueAt(s'.queue[k], later) == WakeAt(s'.queue[k], env)
            && s'.queue[k].attempts == s.queue[k].attempts + 1
  {
  }

  lemma {:induction false} PassEarliest(s: HubState, listing: seq<QueueKey>, envs: seq<DispatchEnv>)
    requires |envs| == |listing| && forall k :: k in listing ==> k in s.queue
    requires forall i, j :: 0 <= i < j < |listing| ==> listing[i] != listing[j]
    ensures var (s', next) := Pass(s, listing, envs);
            && IsEarliestWake(s', listing, envs, next)
            && (forall k :: k !in listing ==> (k in s'.queue <==> k in s.queue) && (k in s.queue ==> s'.queue[k] == s.queue[k]))
  {
    if listing != [] {
      var n := |listing| - 1;
      var (s0, next0) := Pass(s, listing[..n], envs[..n]);
      PassEarliest(s, listing[..n], envs[..n]);
      var last := listing[n];
      assert last !in listing[..n];
      assert last in listing;
      EarliestStep(s0, listing, envs, next0);
      assert s0.queue[last] == s.queue[last];
    }
  }

  /** Dispatching the last listed entry extends the wake-up noted for the ones before it. */
  lemma EarliestStep(s0: HubState, listing: seq<QueueKey>, envs: seq<DispatchEnv>, next0: Option<int>)
    requires listing != [] && |envs| == |listing|
    requires var n := |listing| - 1;
             && IsEarliestWake(s0, listing[..n], envs[..n], next0)
             && listing[n] in s0.queue && listing[n] !in listing[..n]
    ensures var n := |listing| - 1;
            var (s', outcome) := DispatchEntry(s0, listing[n], s0.queue[listing[n]], envs[n]);
            && IsEarliestWake(s', listing, envs, NextWake(next0, outcome))
            && (forall k :: k != listing[n] ==> (k in s'.queue <==> k in s0.queue) && (k in s0.queue ==> s'.queue[k] == s0.queue[k]))
  {
    var n := |listing| - 1;
    var last := listing[n];
    var (s', outcome) := DispatchEntry(s0, last, s0.queue[last], envs[n]);
    var next := NextWake(next0, outcome);
    forall i | 0 <= i < n ensures listing[i] != last && listing[i] == listing[..n][i] && envs[i] == envs[..n][i] {
      assert listing[..n][i] in listing[..n];
    }
    if outcome.Died? {
      assert last !in s'.queue;
    } else {
      assert last in s'.queue;
      assert next == Earlier(next0, WakeAt(s'.queue[last], envs[n]));
    }
    if next.Some? && !(last in s'.queue && next.value == WakeAt(s'.queue[last], envs[n])) {
      assert next == next0;
      var i :| 0 <= i < n && listing[..n][i] in s0.queue && next0.value == WakeAt(s0.queue[listing[..n][i]], envs[..n][i]);
      assert listing[i] in s'.queue && next.value == WakeAt(s'.queue[listing[i]], envs[i]);
    }
  }

  /** A pass over a fresh listing keeps the queue's invariant. */
  lemma {:induction false} PassKeeps(s: HubState, listing: seq<QueueKey>, envs: seq<DispatchEnv>)
    requires HubInvariant.Inv(s) && |envs| == |listing| && forall k :: k in listing ==> k in s.queue
    requires forall i, j :: 0 <= i < j < |listing| ==> listing[i] != listing[j]
    ensures HubInvariant.Inv(Pass(s, listing, envs).0)
  {
    if listing != [] {
      var n := |listing| - 1;
      PassKeeps(s, listing[..n], envs[..n]);
      PassEarliest(s, listing[..n], envs[..n]);
      assert listing[n] in listing && listing[n] !in listing[..n];
      DispatchKeeps(Pass(s, listing[..n], envs[..n]).0, listing[n], envs[n]);
    }
  }

  /** The instant `dispatchQueued` asks the budget for; a full batch asks for another pass at once. */
  function WakeRequest(listing: seq<QueueKey>, next: Option<int>, now: int): Option<int> {
    if |listing| == QUEUE_BATCH_SIZE then Some(now) else next
  }

  function ArmRequest(b: Budget, request: Option<int>, now: int, limit: nat): Budget {
    if request.None? then b else Arm(b, now, request.value, limit).0
  }

  /**
   After a pass that saw fewer than a full batch with budget left, the pending alarm
   is exactly the earliest instant at which any entry still queued becomes due or,
   without a sink that accepts it, expires.
   */
  lemma PassSetsAlarm(s: HubState, listing: seq<QueueKey>, envs: seq<DispatchEnv>, b: Budget, now: int, limit: nat)
    requires IsBatch(s, listing) && |listing| < QUEUE_BATCH_SIZE && |envs| == |listing|
    requires forall i :: 0 <= i < |envs| ==> envs[i].now == now
    requires Count(Roll(b, now), HourStart(now)) < limit
    ensures var (s', next) := Pass(s, listing, envs);
            var b' := ArmRequest(b, WakeRequest(listing, next, now), now, limit);
            && (s'.queue == map[] ==> b' == b)
            && (s'.queue != map[] ==>
                  && b'.alarm.Some?
                  && (forall i :: 0 <= i < |listing| && listing[i] in s'.queue ==>
                        b'.alarm.value <= WakeAt(s'.queue[listing[i]], envs[i]))
                  && (exists i :: 0 <= i < |listing| && listing[i] in s'.queue
                                  && b'.alarm.value == WakeAt(s'.queue[listing[i]], envs[i])))
            && (forall k :: k in s'.queue ==> k in listing)
  {
    PassEarliest(s, listing, envs);
    var (s', next) := Pass(s, listing, envs);
    assert forall k :: k in s.queue ==> k in listing;
    if s'.queue != map[] {
      var k :| k in s'.queue;
      var i :| 0 <= i < |listing| && listing[i] == k;
    }
  }

  /** What a retryable nak asks of the budget, whatever alarm is already pending. */
  function NakRequest(item: Item, code: string, now: int): int {
    if code == "draft_busy" then now + DRAFT_HOLD_BACKSTOP_MS else now + RetryDelay(item.attempts)
  }

  /** The stored entry a resolved nak means, if there is one. */
  predicate NaksEntry(s: HubState, r: Option<MarkerKey>)
    requires r.Some? ==> IsQueued(s, r.value)
  {
    r.Some? && s.markers[r.value].key in s.queue
  }

  /** What a nak does to the alarm budget: only a retryable one asks for a wake-up. */
  function NakBudget(s: HubState, r: Option<MarkerKey>, code: string, retryable: bool, b: Budget, now: int, limit: nat): Budget
    requires r.Some? ==> IsQueued(s, r.value)
  {
    if !NaksEntry(s, r) || !retryable then b
    else Arm(b, now, NakRequest(s.queue[s.markers[r.value].key], code, now), limit).0
  }

  /** The instant it leaves pending, as a caller can tell beforehand: what it asks for, or the end of the hour without budget. */
  function NakWrites(s: HubState, r: Option<MarkerKey>, code: string, retryable: bool, b: Budget, now: int, limit: nat): Option<int>
    requires r.Some? ==> IsQueued(s, r.value)
  {
    if !NaksEntry(s, r) || !retryable then None
    else if Count(Roll(b, now), HourStart(now)) < limit then Some(NakRequest(s.queue[s.markers[r.value].key], code, now))
    else Some(HourEnd(now))
  }

  predicate IsOther(s: HubState, r: Option<MarkerKey>, k: QueueKey)
    requires r.Some? ==> IsQueued(s, r.value)
  {
    k in s.queue && (r.Some? ==> s.markers[r.value].key != k)
  }

  /** A wake-up is pending in time for the entry. */
  predicate EntryCovered(b: Budget, item: Item, env: DispatchEnv) {
    b.alarm.Some? && b.alarm.value <= WakeAt(item, env)
  }

  /** Of the other entries whose wake-up was pending in time, one that is due first. */
  ghost predicate IsEarliestCovered(s: HubState, r: Option<MarkerKey>, b: Budget, envs: QueueKey -> DispatchEnv, first: QueueKey)
    requires r.Some? ==> IsQueued(s, r.value)
  {
    && IsOther(s, r, first) && EntryCovered(b, s.queue[first], envs(first))
    && forall k :: IsOther(s, r, k) && EntryCovered(b, s.queue[k], envs(k)) ==>
                     WakeAt(s.queue[first], envs(first)) <= WakeAt(s.queue[k], envs(k))
  }

  /**
   A nak overwrites the alarm. Every other stored entry is untouched by it, and one
   whose wake-up was pending in time stays covered exactly when the nak writes no
   alarm, or one no later than that entry is due; and all of them stay covered exactly
   when it writes none later than the earliest of them is due.
   */
  lemma NakAlarmExact(
    s: HubState, r: Option<MarkerKey>, code: string, retryable: bool, b: Budget, now: int, limit: nat, envs: QueueKey -> DispatchEnv)
    requires HubInvariant.Inv(s) && AlarmBudget.Inv(b, now, limit) && (r.Some? ==> IsQueued(s, r.value))
    ensures var s' := Nak(s, r, code, retryable);
            var b' := NakBudget(s, r, code, retryable, b, now, limit);
            var writes := NakWrites(s, r, code, retryable, b, now, limit);
            && (forall k :: IsOther(s, r, k) ==> k in s'.queue && s'.queue[k] == s.queue[k])
            && (forall k :: IsOther(s, r, k) && EntryCovered(b, s.queue[k], envs(k)) ==>
                  (EntryCovered(b', s'.queue[k], envs(k)) <==> writes.None? || writes.value <= WakeAt(s'.queue[k], envs(k))))
            && (forall first :: IsEarliestCovered(s, r, b, envs, first) ==>
                  ((forall k :: IsOther(s, r, k) && EntryCovered(b, s.queue[k], envs(k)) ==> EntryCovered(b', s'.queue[k], envs(k))) <==>
                   writes.None? || writes.value <= WakeAt(s.queue[first], envs(first))))
  {
    if NaksEntry(s, r) {
      ArmKeeps(b, now, NakRequest(s.queue[s.markers[r.value].key], code, now), limit);
    }
  }

  // Two messages of one agent, both sent at time 0 in one pass.

  const AT_ZERO: DispatchEnv := DispatchEnv(0, true, true, None)

  function BothQueued(agent: string, id: string, other: string): HubState {
    QueueDelivery(QueueDelivery(EMPTY, Note(id, agent), true, 0).0, Note(other, agent), true, 0).0
  }

  function SentOnce(id: string, agent: string): Item {
    Attempted(NewItem(Note(id, agent), 0), AT_ZERO)
  }

  function BothKeys(agent: string): seq<QueueKey> {
    [QueueKey(agent, 1), QueueKey(agent, 2)]
  }

  lemma BothKept(agent: string, id: string, other: string)
    requires id != other
    ensures HubInvariant.Inv(BothQueued(agent, id, other))
  {
    EmptyInv();
    QueueDeliveryKeeps(EMPTY, Note(id, agent), true, 0);
    QueueDeliveryKeeps(QueueDelivery(EMPTY, Note(id, agent), true, 0).0, Note(other, agent), true, 0);
  }

  lemma BothListed(agent: string, id: string, other: string)
    requires id != other
    ensures var s := BothQueued(agent, id, other);
            && s.queue == map[QueueKey(agent, 1) := NewItem(Note(id, agent), 0), QueueKey(agent, 2) := NewItem(Note(other, agent), 0)]
            && IsBatch(s, BothKeys(agent))
  {
  }

  lemma FirstSent(s: HubState, k: QueueKey, item: Item)
    requires item.attempts == 0 && item.enqueuedAt == 0 && item.lastAttemptAt.None? && item.connectionId.None? && item.render.None?
    requires k in s.queue && s.queue[k] == item
    ensures DispatchEntry(s, k, item, AT_ZERO) ==
            (s.(queue := s.queue[k := Attempted(item, AT_ZERO)]), Sent(Verbatim(item.envelope), 5_000))
  {
    RetryDelayShape(1);
  }

  lemma BothSent(agent: string, id: string, other: string)
    requires id != other
    ensures forall k :: k in BothKeys(agent) ==> k in BothQueued(agent, id, other).queue
    ensures var s := BothQueued(agent, id, other);
            var (s', next) := Pass(s, BothKeys(agent), [AT_ZERO, AT_ZERO]);
            && s'.queue == map[QueueKey(agent, 1) := SentOnce(id, agent), QueueKey(agent, 2) := SentOnce(other, agent)]
            && s'.markers == s.markers && next == Some(5_000)
  {
    BothListed(agent, id, other);
    var s, listing, envs := BothQueued(agent, id, other), BothKeys(agent), [AT_ZERO, AT_ZERO];
    FirstSent(s, listing[0], s.queue[listing[0]]);
    var s1 := s.(queue := s.queue[listing[0] := SentOnce(id, agent)]);
    FirstSent(s1, listing[1], s.queue[listing[1]]);
    assert listing[..1] == [listing[0]] && listing[..1][..0] == [] && envs[..1] == [AT_ZERO] && envs[..1][..0] == [];
    assert Pass(s, listing[..1], envs[..1]) == (s1, Some(5_000));
  }

  /**
   It does happen: two messages are sent, and their retry at 5 s is pending; holding
   one for a draft leaves the other to 5 minutes, or to the end of the hour when the
   budget is spent.
   */
  lemma NakPostponesAnother(agent: string, id: string, other: string, limit: nat)
    requires id != other && limit >= 1
    ensures var listing := BothKeys(agent);
            && HubInvariant.Inv(BothQueued(agent, id, other)) && IsBatch(BothQueued(agent, id, other), listing)
            && var (s, next) := Pass(BothQueued(agent, id, other), listing, [AT_ZERO, AT_ZERO]);
            var b := ArmRequest(FRESH, WakeRequest(listing, next, 0), 0, limit);
            var m := MarkerKey(id, agent);
            && Resolves(s, id, Some(agent), Some(m)) && QueueKey(agent, 2) in s.queue
            && EntryCovered(b, s.queue[QueueKey(agent, 2)], AT_ZERO)
            && var b' := NakBudget(s, Some(m), "draft_busy", true, b, 0, limit);
               && b'.alarm == Some(if limit == 1 then 3_600_000 else 300_000)
               && !EntryCovered(b', Nak(s, Some(m), "draft_busy", true).queue[QueueKey(agent, 2)], AT_ZERO)
  {
    BothKept(agent, id, other);
    BothListed(agent, id, other);
    BothSent(agent, id, other);
    RetryDelayShape(1);
  }
}
