/** What every reachable queue of a host satisfies, and that each operation keeps it. */
module HubInvariant {
  import opened Common
  import opened HubModel

  /**
   Exact one-to-one correspondence: every entry is the one its recipient's marker
   points at, and every queued marker points at an entry of that message and recipient.
   */
  ghost predicate Corresponds(s: HubState) {
    && (forall k :: k in s.queue ==> EntryMarked(s, k))
    && (forall m :: m in s.markers && s.markers[m].Queued? ==> MarkerBacked(s, m))
  }

  ghost predicate EntryMarked(s: HubState, k: QueueKey)
    requires k in s.queue
  {
    && s.queue[k].agent == k.agent
    && MarkerOf(s.queue[k]) in s.markers
    && s.markers[MarkerOf(s.queue[k])] == Queued(k)
  }

  ghost predicate MarkerBacked(s: HubState, m: MarkerKey)
    requires m in s.markers && s.markers[m].Queued?
  {
    var k := s.markers[m].key;
    k in s.queue && k.agent == m.agent && MarkerOf(s.queue[k]) == m
  }

  /** Sequence numbers are issued once; a dead letter keeps the number of the entry it was. */
  ghost predicate Numbered(s: HubState) {
    && (forall k :: k in s.queue ==> 1 <= k.number <= s.sequence)
    && (forall k, k' :: k in s.queue && k' in s.queue && k.number == k'.number ==> k == k')
    && (forall m :: m in s.markers && s.markers[m].Dead? ==> DeadLetter(s, m))
    && (forall m, m' :: (m in s.markers && m' in s.markers && s.markers[m].Dead? && s.markers[m'].Dead?
                         && s.markers[m].key.number == s.markers[m'].key.number) ==> m == m')
  }

  ghost predicate DeadLetter(s: HubState, m: MarkerKey)
    requires m in s.markers && s.markers[m].Dead?
  {
    var dead := s.markers[m];
    && MarkerOf(dead.item) == m
    && dead.key.agent == m.agent
    && 1 <= dead.key.number <= s.sequence
    && forall k :: k in s.queue ==> k.number != dead.key.number
  }

  ghost predicate Inv(s: HubState) {
    Corresponds(s) && Numbered(s)
  }

  lemma EmptyInv()
    ensures Inv(EMPTY)
  {
  }

  lemma QueueDeliveryKeeps(s: HubState, input: DeliveryInput, routable: bool, now: int)
    requires Inv(s)
    ensures Inv(QueueDelivery(s, input, routable, now).0)
  {
    var s' := QueueDelivery(s, input, routable, now).0;
    if s' != s {
      var m := MarkerKey(input.id, input.agent);
      forall k | k in s'.queue ensures EntryMarked(s', k) {
        if k in s.queue {
          assert EntryMarked(s, k);
        }
      }
      forall m' | m' in s'.markers && s'.markers[m'].Queued? ensures MarkerBacked(s', m') {
        if m' != m {
          assert MarkerBacked(s, m');
        }
      }
      forall m' | m' in s'.markers && s'.markers[m'].Dead? ensures DeadLetter(s', m') {
        assert DeadLetter(s, m');
      }
    }
  }

  lemma InjectKeeps(s: HubState, m: MarkerKey)
    requires Inv(s) && IsQueued(s, m)
    ensures Inv(Inject(s, m))
  {
    var s' := Inject(s, m);
    assert MarkerBacked(s, m);
    forall k | k in s'.queue ensures EntryMarked(s', k) {
      assert EntryMarked(s, k);
    }
    forall m' | m' in s'.markers && s'.markers[m'].Queued? ensures MarkerBacked(s', m') {
      assert MarkerBacked(s, m');
    }
    forall m' | m' in s'.markers && s'.markers[m'].Dead? ensures DeadLetter(s', m') {
      assert DeadLetter(s, m');
    }
  }

  lemma AckKeeps(s: HubState, r: Option<MarkerKey>)
    requires Inv(s) && (r.Some? ==> IsQueued(s, r.value))
    ensures Inv(Ack(s, r))
    ensures r.Some? ==> Ack(s, r) == Inject(s, r.value)
  {
    if r.Some? {
      assert MarkerBacked(s, r.value);
      InjectKeeps(s, r.value);
    }
  }

  /** A death recorded for the entry as it is stored now. */
  lemma MarkDeadKeeps(s: HubState, k: QueueKey, item: Item, error: string)
    requires Inv(s) && k in s.queue && MarkerOf(item) == MarkerOf(s.queue[k])
    ensures Inv(MarkDead(s, k, item, error))
  {
    var s' := MarkDead(s, k, item, error);
    assert EntryMarked(s, k);
    forall k' | k' in s'.queue ensures EntryMarked(s', k') {
      assert EntryMarked(s, k');
    }
    forall m | m in s'.markers && s'.markers[m].Queued? ensures MarkerBacked(s', m) {
      assert MarkerBacked(s, m);
    }
    forall m | m in s'.markers && s'.markers[m].Dead? ensures DeadLetter(s', m) {
      if m != MarkerOf(item) {
        assert DeadLetter(s, m);
      }
    }
  }

  /**
   A death recorded from a stale snapshot keeps the correspondence exactly when the
   key, if still stored, still holds that message and recipient, and the recipient's
   marker, if queued again, still points at that key.
   */
  lemma StaleDeathExact(s: HubState, k: QueueKey, item: Item, error: string)
    requires Inv(s)
    ensures Corresponds(MarkDead(s, k, item, error)) <==>
            && (k in s.queue ==> MarkerOf(s.queue[k]) == MarkerOf(item))
            && (IsQueued(s, MarkerOf(item)) ==> s.markers[MarkerOf(item)].key == k)
  {
    var s' := MarkDead(s, k, item, error);
    var m := MarkerOf(item);
    if k in s.queue && MarkerOf(s.queue[k]) == m {
      MarkDeadKeeps(s, k, item, error);
      assert EntryMarked(s, k);
    } else if k in s.queue {
      assert EntryMarked(s, k);
      assert !MarkerBacked(s', MarkerOf(s.queue[k]));
    } else if IsQueued(s, m) {
      var k' := s.markers[m].key;
      assert MarkerBacked(s, m);
      assert k' != k && k' in s'.queue && !EntryMarked(s', k');
    } else {
      forall k' | k' in s'.queue ensures EntryMarked(s', k') {
        assert EntryMarked(s, k');
      }
      forall m' | m' in s'.markers && s'.markers[m'].Queued? ensures MarkerBacked(s', m') {
        assert MarkerBacked(s, m');
      }
    }
  }

  predicate StillStored(s: HubState, k: QueueKey, item: Item) {
    k in s.queue && MarkerOf(s.queue[k]) == MarkerOf(item)
  }

  /** Nothing stored carries the number of the key, except a dead letter of the pair itself. */
  ghost predicate NumberFree(s: HubState, k: QueueKey, m: MarkerKey) {
    && (forall k' :: k' in s.queue ==> k'.number != k.number)
    && (forall m' :: m' in s.markers && m' != m && s.markers[m'].Dead? ==> s.markers[m'].key.number != k.number)
  }

  /** The copied entry is still the stored one, or its number is free and its recipient has nothing of the message queued. */
  ghost predicate DeathSafe(s: HubState, k: QueueKey, item: Item) {
    StillStored(s, k, item) || (NumberFree(s, k, MarkerOf(item)) && !IsQueued(s, MarkerOf(item)))
  }

  lemma DeathNumbered(s: HubState, k: QueueKey, item: Item, error: string)
    requires Inv(s) && item.agent == k.agent && 1 <= k.number <= s.sequence && DeathSafe(s, k, item)
    ensures Numbered(MarkDead(s, k, item, error))
  {
    var s' := MarkDead(s, k, item, error);
    forall m | m in s'.markers && s'.markers[m].Dead? ensures DeadLetter(s', m) {
      assert m != MarkerOf(item) ==> DeadLetter(s, m);
    }
  }

  lemma UnsafeDeathBreaks(s: HubState, k: QueueKey, item: Item, error: string)
    requires Inv(s) && !DeathSafe(s, k, item)
    ensures !Inv(MarkDead(s, k, item, error))
  {
    var s' := MarkDead(s, k, item, error);
    var m := MarkerOf(item);
    StaleDeathExact(s, k, item, error);
    if k in s.queue {
      assert !Corresponds(s');
    } else if IsQueued(s, m) {
      assert MarkerBacked(s, m);
    } else if k' :| k' in s.queue && k'.number == k.number {
      assert k' in s'.queue && !DeadLetter(s', m);
    } else {
      var m' :| m' in s.markers && m' != m && s.markers[m'].Dead? && s.markers[m'].key.number == k.number;
      assert s'.markers[m'].Dead? && s'.markers[m].Dead?;
    }
  }

  /** A death recorded from a copy keeps the whole invariant exactly when it is safe. */
  lemma StaleDeathKeepsExact(s: HubState, k: QueueKey, item: Item, error: string)
    requires Inv(s) && item.agent == k.agent && 1 <= k.number <= s.sequence
    ensures Inv(MarkDead(s, k, item, error)) <==> DeathSafe(s, k, item)
  {
    if DeathSafe(s, k, item) {
      StaleDeathExact(s, k, item, error);
      DeathNumbered(s, k, item, error);
      assert !StillStored(s, k, item) ==> k !in s.queue;
    } else {
      UnsafeDeathBreaks(s, k, item, error);
    }
  }

  /** Rewriting the bookkeeping of a stored entry changes neither its message nor its recipient. */
  lemma UpdateKeeps(s: HubState, k: QueueKey, item: Item)
    requires Inv(s) && k in s.queue && item.agent == s.queue[k].agent && item.id == s.queue[k].id
    ensures Inv(s.(queue := s.queue[k := item]))
  {
    var s' := s.(queue := s.queue[k := item]);
    forall k' | k' in s'.queue ensures EntryMarked(s', k') {
      assert EntryMarked(s, k');
    }
    forall m | m in s'.markers && s'.markers[m].Queued? ensures MarkerBacked(s', m) {
      assert MarkerBacked(s, m);
    }
    forall m | m in s'.markers && s'.markers[m].Dead? ensures DeadLetter(s', m) {
      assert DeadLetter(s, m);
    }
  }

  lemma NakKeeps(s: HubState, r: Option<MarkerKey>, code: string, retryable: bool)
    requires Inv(s) && (r.Some? ==> IsQueued(s, r.value))
    ensures Inv(Nak(s, r, code, retryable))
  {
    if r.Some? {
      assert MarkerBacked(s, r.value);
      var k := s.markers[r.value].key;
      if !retryable {
        MarkDeadKeeps(s, k, s.queue[k], code);
      } else {
        UpdateKeeps(s, k, Nak(s, r, code, retryable).queue[k]);
      }
    }
  }

  lemma CancelKeeps(s: HubState, id: string)
    requires Inv(s)
    ensures Inv(Cancel(s, id))
  {
    CancelExact(s, id);
    var s' := Cancel(s, id);
    forall k | k in s'.queue ensures EntryMarked(s', k) {
      assert EntryMarked(s, k);
    }
    forall m | m in s'.markers && s'.markers[m].Queued? ensures MarkerBacked(s', m) {
      assert s'.markers[m] == s.markers[m];
      assert MarkerBacked(s, m);
    }
    forall m | m in s'.markers && s'.markers[m].Dead? ensures DeadLetter(s', m) {
      assert DeadLetter(s, m);
      assert s'.markers[m] == s.markers[m];
    }
  }

  /** Cancelling leaves no entry of the message on this host, and touches no other message. */
  lemma CancelExact(s: HubState, id: string)
    requires Inv(s)
    ensures forall k :: k in Cancel(s, id).queue <==> k in s.queue && s.queue[k].id != id
    ensures forall m :: m in s.markers && m.id != id ==> Cancel(s, id).markers[m] == s.markers[m]
    ensures forall m :: m in s.markers && m.id == id ==> !Cancel(s, id).markers[m].Queued?
  {
    forall k | k in s.queue ensures k in QueuedKeys(s, id) <==> s.queue[k].id == id {
      assert EntryMarked(s, k);
      if k in QueuedKeys(s, id) {
        var m :| m in s.markers && m.id == id && s.markers[m].Queued? && s.markers[m].key == k;
        assert MarkerBacked(s, m);
      }
    }
  }

  lemma RequeueKeeps(s: HubState, r: Option<MarkerKey>, now: int)
    requires Inv(s) && (r.Some? ==> r.value in s.markers && s.markers[r.value].Dead?)
    ensures Inv(Requeue(s, r, now))
  {
    if r.Some? {
      var s' := Requeue(s, r, now);
      assert DeadLetter(s, r.value);
      forall k | k in s'.queue ensures EntryMarked(s', k) {
        if k in s.queue {
          assert EntryMarked(s, k);
        }
      }
      forall m | m in s'.markers && s'.markers[m].Queued? ensures MarkerBacked(s', m) {
        if m != r.value {
          assert MarkerBacked(s, m);
        }
      }
      forall m | m in s'.markers && s'.markers[m].Dead? ensures DeadLetter(s', m) {
        assert DeadLetter(s, m);
      }
    }
  }

  /** Dispatching an entry as it is stored now. */
  lemma DispatchKeeps(s: HubState, k: QueueKey, env: DispatchEnv)
    requires Inv(s) && k in s.queue
    ensures Inv(DispatchEntry(s, k, s.queue[k], env).0)
  {
    var item := s.queue[k];
    if Expired(item, env.now) {
      MarkDeadKeeps(s, k, item, if item.lastError.Some? then item.lastError.value else "delivery limit exceeded");
    } else if Revoked(item, env) {
      MarkDeadKeeps(s, k, item, "organization_connection_revoked");
    } else {
      UpdateKeeps(s, k, Attempted(item, env));
    }
  }

  // ---------------------------------------------------------------- the inbox

  ghost predicate IsInboxListing(s: HubState, agent: string, listing: seq<QueueKey>) {
    && (forall k :: k in listing <==> k in s.queue && k.agent == agent)
    && (forall i, j :: 0 <= i < j < |listing| ==> listing[i].number < listing[j].number)
  }

  /** The inbox lists exactly the messages queued for the reader, each once, in sequence order. */
  lemma InboxExact(s: HubState, agent: string, listing: seq<QueueKey>)
    requires Inv(s) && IsInboxListing(s, agent, listing)
    ensures forall k :: k in listing ==> k in s.queue
    ensures forall id :: IsQueued(s, MarkerKey(id, agent)) <==>
                         exists i :: 0 <= i < |listing| && s.queue[listing[i]].id == id
    ensures forall i, j :: 0 <= i < |listing| && 0 <= j < |listing| && s.queue[listing[i]].id == s.queue[listing[j]].id ==> i == j
  {
    forall id | IsQueued(s, MarkerKey(id, agent))
      ensures exists i :: 0 <= i < |listing| && s.queue[listing[i]].id == id
    {
      assert MarkerBacked(s, MarkerKey(id, agent));
      var k := s.markers[MarkerKey(id, agent)].key;
      var i :| 0 <= i < |listing| && listing[i] == k;
    }
    forall i | 0 <= i < |listing|
      ensures IsQueued(s, MarkerKey(s.queue[listing[i]].id, agent))
      ensures s.markers[MarkerKey(s.queue[listing[i]].id, agent)] == Queued(listing[i])
    {
      assert listing[i] in listing;
      assert EntryMarked(s, listing[i]);
    }
  }

  /** Settling removes exactly one entry, the reader's own, when it says settled; otherwise nothing changes. */
  lemma SettleExact(s: HubState, agent: string, id: string)
    requires Inv(s)
    ensures var (s', settled) := SettleInbox(s, agent, id);
            && (settled <==> IsQueued(s, MarkerKey(id, agent)))
            && (!settled ==> s' == s)
            && (settled ==>
                  var k := s.markers[MarkerKey(id, agent)].key;
                  && k in s.queue && k.agent == agent && s.queue[k].id == id
                  && s'.queue == s.queue - {k}
                  && s'.markers == s.markers[MarkerKey(id, agent) := Injected])
  {
    if IsQueued(s, MarkerKey(id, agent)) {
      assert MarkerBacked(s, MarkerKey(id, agent));
    }
  }
}
