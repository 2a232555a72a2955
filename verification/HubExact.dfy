/**
 What acks, naks, cancellations and requeues come to, told by the stored fields
 (src/do/host-hub.ts): which entry and marker change, how, and when the hub wakes up next.
 */
module HubExact {
  import opened Common
  import AlarmBudget
  import opened HubModel
  import HubDispatch
  import HubRename

  /** Only the entry and the marker of one queued pair have changed. */
  ghost predicate OnlyPair(s: HubState, s': HubState, m: MarkerKey)
    requires IsQueued(s, m)
  {
    && s'.sequence == s.sequence
    && (forall k :: k != s.markers[m].key ==> (k in s'.queue <==> k in s.queue) && (k in s.queue ==> s'.queue[k] == s.queue[k]))
    && (forall other :: other != m ==>
          (other in s'.markers <==> other in s.markers) && (other in s.markers ==> s'.markers[other] == s.markers[other]))
  }

  /** Which pair an echoed agent means: its own while it is queued, and otherwise some queued pair of the message, if there is one. */
  lemma EchoMeans(s: HubState, id: string, agent: Option<string>, r: Option<MarkerKey>)
    requires Resolves(s, id, agent, r)
    ensures r.None? <==> forall m :: m in s.markers && m.id == id ==> !s.markers[m].Queued?
    ensures r.Some? ==> r.value.id == id && r.value in s.markers && s.markers[r.value].Queued?
    ensures agent.Some? && MarkerKey(id, agent.value) in s.markers && s.markers[MarkerKey(id, agent.value)].Queued? ==>
              r == Some(MarkerKey(id, agent.value))
  {
  }

  /** Which one: the first by the agents' names, hyphens before digits before letters, a name before what extends it, unless by a hyphen. */
  lemma FallbackExact(s: HubState, id: string, agent: Option<string>, r: Option<MarkerKey>)
    requires Resolves(s, id, agent, r) && r.Some? && agent != Some(r.value.agent)
    ensures forall m :: m in s.markers && m.id == id && s.markers[m].Queued? && m != r.value ==>
              Before(Collated(r.value.agent + ":"), Collated(m.agent + ":"))
    ensures forall c, d :: '0' <= c < d <= '9' ==> CollationRank(c) < CollationRank(d)
    ensures forall c, d :: 'a' <= c < d <= 'z' ==> CollationRank(c) < CollationRank(d)
    ensures forall c :: '0' <= c <= '9' ==> CollationRank('-') < CollationRank(':') < CollationRank(c) < CollationRank('a')
  {
    assert CollationRank('-') == 0 && CollationRank(':') == 1 && CollationRank('a') == 100 + 97;
    forall c | '0' <= c <= '9' ensures 2 <= CollationRank(c) <= 11 {
      assert '0' as nat <= c as nat <= '9' as nat;
    }
  }

  lemma AckExact(s: HubState, m: MarkerKey)
    requires IsQueued(s, m) && s.markers[m].key in s.queue
    ensures var s' := Ack(s, Some(m));
            OnlyPair(s, s', m) && s.markers[m].key !in s'.queue && m in s'.markers && s'.markers[m] == Injected
  {
  }

  /** A final nak buries the entry with its code; a draft hold gives one attempt back; any other keeps it; the last two note the code. */
  lemma NakExact(s: HubState, m: MarkerKey, code: string, retryable: bool)
    requires IsQueued(s, m) && s.markers[m].key in s.queue
    requires MarkerKey(s.queue[s.markers[m].key].id, s.queue[s.markers[m].key].agent) == m
    ensures var s' := Nak(s, Some(m), code, retryable);
            var k := s.markers[m].key;
            && OnlyPair(s, s', m) && m in s'.markers
            && (!retryable ==> k !in s'.queue && s'.markers[m] == Dead(k, s.queue[k].(lastError := Some(code))))
            && (retryable ==>
                  && s'.markers[m] == s.markers[m] && k in s'.queue
                  && s'.queue[k] == s.queue[k].(
                       lastError := Some(code),
                       attempts := if code == "draft_busy" && s.queue[k].attempts > 0 then s.queue[k].attempts - 1 else s.queue[k].attempts))
  {
  }

  /** After a retryable nak the hub is woken in five minutes for a hold, and otherwise when the entry's sends so far make it due again. */
  lemma NakWakesExact(
    s: HubState, r: Option<MarkerKey>, code: string, retryable: bool, b: AlarmBudget.Budget, now: int, limit: nat)
    requires AlarmBudget.Inv(b, now, limit) && (r.Some? ==> IsQueued(s, r.value))
    ensures var b' := HubDispatch.NakBudget(s, r, code, retryable, b, now, limit);
            var spent := AlarmBudget.Count(AlarmBudget.Roll(b, now), AlarmBudget.HourStart(now)) >= limit;
            if r.None? || s.markers[r.value].key !in s.queue || !retryable then b' == b
            else b'.alarm == Some(if spent then AlarmBudget.HourEnd(now)
                                  else if code == "draft_busy" then now + 300_000
                                  else now + RetryDelay(s.queue[s.markers[r.value].key].attempts))
  {
    if r.Some? && s.markers[r.value].key in s.queue {
      AlarmBudget.ArmKeeps(b, now, HubDispatch.NakRequest(s.queue[s.markers[r.value].key], code, now), limit);
    }
  }

  /** A requeued dead letter is queued under its old key as if new: no attempts, no failure, a full day to live. */
  lemma RequeueExact(s: HubState, m: MarkerKey, now: int)
    requires m in s.markers && s.markers[m].Dead?
    ensures var s' := Requeue(s, Some(m), now);
            var k, item := s.markers[m].key, s.markers[m].item;
            && s'.sequence == s.sequence
            && s'.markers == s.markers[m := Queued(k)] && s'.queue == s.queue[k := s'.queue[k]]
            && var back := s'.queue[k];
               && back.attempts == 0 && back.enqueuedAt == now && back.lastAttemptAt.None? && back.lastError.None?
               && back.id == item.id && back.org == item.org && back.agent == item.agent && back.targetAddr == item.targetAddr
               && back.envelope == item.envelope && back.render == item.render && back.roomName == item.roomName
               && back.roomSeq == item.roomSeq && back.connectionId == item.connectionId
  {
  }

  /** The dead letter that is requeued is the first of the message in the order of the agents' names. */
  lemma FirstDeadExact(s: HubState, id: string, r: Option<MarkerKey>)
    requires FirstDead(s, id, r)
    ensures r.None? <==> forall m :: m in s.markers && m.id == id ==> !s.markers[m].Dead?
    ensures r.Some? ==>
              && r.value.id == id && r.value in s.markers && s.markers[r.value].Dead?
              && forall m :: m in s.markers && m.id == id && s.markers[m].Dead? && m != r.value ==>
                   Before(CodeUnits(r.value.agent), CodeUnits(m.agent))
  {
  }

  /** Settling from the inbox takes the reader's own entry, exactly if it is queued. */
  lemma SettleInboxExact(s: HubState, reader: string, id: string)
    requires MarkerKey(id, reader) in s.markers && s.markers[MarkerKey(id, reader)].Queued? ==> s.markers[MarkerKey(id, reader)].key in s.queue
    ensures var (s', settled) := SettleInbox(s, reader, id);
            var m := MarkerKey(id, reader);
            && (settled <==> m in s.markers && s.markers[m].Queued?)
            && (!settled ==> s' == s)
            && (settled ==> OnlyPair(s, s', m) && s.markers[m].key !in s'.queue && m in s'.markers && s'.markers[m] == Injected)
  {
  }

  /** The delay before the next send: five seconds for the first, twice as long each time, five minutes at most. */
  lemma RetryDelayExact(sends: nat)
    ensures sends <= 1 ==> RetryDelay(sends) == 5_000
    ensures sends >= 1 ==> RetryDelay(sends + 1) == if 2 * RetryDelay(sends) <= 300_000 then 2 * RetryDelay(sends) else 300_000
  {
  }

  /** A batch is all there is, or the first 128 entries by recipient and then by number. */
  lemma BatchExact(s: HubState, listing: seq<QueueKey>)
    requires HubDispatch.IsBatch(s, listing)
    ensures |listing| <= 128 && forall k :: k in listing ==> k in s.queue
    ensures |listing| < 128 ==> forall k :: k in s.queue ==> k in listing
    ensures forall k, l :: k in s.queue && k !in listing && l in listing ==>
              if k.agent == l.agent then l.number <= k.number
              else Before(CodeUnits(l.agent + ":"), CodeUnits(k.agent + ":"))
  {
  }

  /** With budget left, a pass over a full batch wakes the hub again at once, and any other when the earliest of what it noted comes. */
  lemma PassWakesExact(listing: seq<QueueKey>, next: Option<int>, b: AlarmBudget.Budget, now: int, limit: nat)
    requires AlarmBudget.Inv(b, now, limit)
    requires AlarmBudget.Count(AlarmBudget.Roll(b, now), AlarmBudget.HourStart(now)) < limit
    ensures var b' := HubDispatch.ArmRequest(b, HubDispatch.WakeRequest(listing, next, now), now, limit);
            if |listing| == 128 then b'.alarm == Some(now)
            else if next.Some? then b'.alarm == next
            else b' == b
  {
    AlarmBudget.ArmKeeps(b, now, now, limit);
    if next.Some? {
      AlarmBudget.ArmKeeps(b, now, next.value, limit);
    }
  }
}
