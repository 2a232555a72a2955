/**
 One integration as the object that keeps its storage (src/do/integration.ts). Its
 methods are proved to do what IntegrationModel says.
 */
module Integration {
  import opened Common
  import opened IntegrationModel
  import AlarmBudget
  import Storage

  // ---------------------------------------------------------------- one more key of a listing

  lemma DispatchDueSnoc(s: IntegrationModel.Integration, ids: seq<string>, errors: map<string, string>, now: int, i: nat)
    requires i < |ids|
    ensures var s0 := DispatchDue(s, ids[..i], errors, now);
            DispatchDue(s, ids[..i + 1], errors, now) ==
            if ids[i] in s.deliveries && IsDue(s.deliveries[ids[i]], now)
            then Dispatch(s0, ids[i], ErrorFor(errors, ids[i]), now)
            else s0
  {
    assert ids[..i + 1][..i] == ids[..i];
  }

  lemma RetryRepliesSnoc(s: IntegrationModel.Integration, ids: seq<string>, errors: map<string, string>, now: int, i: nat)
    requires i < |ids|
    ensures var s0 := RetryReplies(s, ids[..i], errors, now);
            RetryReplies(s, ids[..i + 1], errors, now) ==
            if ids[i] !in s.replies then s0 else Retried(s0, ids[i], s.replies[ids[i]], ErrorFor(errors, ids[i]), now)
  {
    assert ids[..i + 1][..i] == ids[..i];
  }

  lemma PostedBySnoc(d: Deliveries, r: map<string, Reply>, ids: seq<string>, errors: map<string, string>, now: int, i: nat)
    requires i < |ids|
    ensures PostedBy(d, r, ids[..i + 1], errors, now) ==
            PostedBy(d, r, ids[..i], errors, now) + if PostsReply(d, r, ids[i], ErrorFor(errors, ids[i]), now) then [ids[i]] else []
  {
    assert ids[..i + 1][..i] == ids[..i];
  }

  /** The deliveries once the listed ones have been visited. */
  function SettledAmong(d: Deliveries, ids: seq<string>, conversation: string, now: int): Deliveries {
    map id | id in d :: if id in ids then SettledIn(d[id], conversation, now) else d[id]
  }

  lemma SettledSnoc(d: Deliveries, ids: seq<string>, conversation: string, now: int, i: nat)
    requires i < |ids| && ids[i] in d
    ensures var id, before := ids[i], SettledAmong(d, ids[..i], conversation, now);
            && SettledAmong(d, ids[..i + 1], conversation, now) ==
               (if Settles(d, id, conversation) then before[id := HandledAt(d[id], now)] else before)
            && SettledBy(d, ids[..i + 1], conversation) ==
               SettledBy(d, ids[..i], conversation) + if Settles(d, id, conversation) then [id] else []
  {
    assert ids[..i + 1][..i] == ids[..i];
    assert ids[..i + 1] == ids[..i] + [ids[i]];
  }

  lemma NextDeliverySnoc(s: IntegrationModel.Integration, ids: seq<string>, i: nat)
    requires i < |ids|
    ensures var next := NextDelivery(s, ids[..i]);
            NextDelivery(s, ids[..i + 1]) ==
            if ids[i] in s.deliveries && WaitsDelivery(s.deliveries[ids[i]])
            then Earlier(next, s.deliveries[ids[i]].nextAttemptAt.value) else next
  {
    assert ids[..i + 1][..i] == ids[..i];
  }

  lemma NextReplySnoc(s: IntegrationModel.Integration, first: Option<int>, ids: seq<string>, i: nat)
    requires i < |ids|
    ensures var next := NextReply(s, first, ids[..i]);
            NextReply(s, first, ids[..i + 1]) ==
            if ids[i] in s.replies && WaitsReply(s.replies[ids[i]])
            then Earlier(next, s.replies[ids[i]].nextAttemptAt.value) else next
  {
    assert ids[..i + 1][..i] == ids[..i];
  }

  lemma ScheduleAllSnoc(b: AlarmBudget.Budget, wakes: seq<int>, now: int, limit: nat, i: nat)
    requires i < |wakes|
    ensures IntegrationModel.ScheduleAll(b, wakes[..i + 1], now, limit) ==
            IntegrationModel.ScheduleAt(IntegrationModel.ScheduleAll(b, wakes[..i], now, limit), wakes[i], now, limit)
  {
    assert wakes[..i + 1][..i] == wakes[..i];
  }

  method StoredNames(names: set<string>) returns (listing: seq<string>)
    ensures Storage.Lists(listing, names, Storage.NameBefore)
  {
    Storage.NamesOrdered(names);
    listing := Storage.List(names, Storage.NameBefore);
  }

  class Integration {
    var active: bool
    const healthPing: bool
    const limit: nat
    var deliveries: map<string, Delivery>
    var replies: map<string, Reply>
    var eventKeys: map<string, string>
    var cancels: seq<string>               // calls to `cancelDelivery` at the targets' hubs, in order
    const alarms: AlarmBudget.AlarmStorage

    function State(): IntegrationModel.Integration
      reads this, alarms
    {
      IntegrationModel.Integration(active, healthPing, limit, deliveries, replies, eventKeys, alarms.State())
    }

    constructor (healthPing: bool, limit: nat)
      ensures State() == IntegrationModel.Integration(true, healthPing, limit, map[], map[], map[], AlarmBudget.FRESH)
      ensures fresh(alarms) && cancels == []
    {
      this.healthPing, this.limit := healthPing, limit;
      active, deliveries, replies, eventKeys, cancels := true, map[], map[], map[], [];
      alarms := new AlarmBudget.AlarmStorage();
    }

    // -------------------------------------------------------------- scheduling

    method ScheduleAt(at: int, now: int)
      modifies alarms
      ensures alarms.State() == IntegrationModel.ScheduleAt(old(alarms.State()), at, now, limit)
    {
      if alarms.alarm.Some? && alarms.alarm.value <= at {
        return;
      }
      var _ := alarms.BudgetedAlarm(now, at, limit);
    }

    method ScheduleAll(wakes: seq<int>, now: int)
      modifies alarms
      ensures alarms.State() == IntegrationModel.ScheduleAll(old(alarms.State()), wakes, now, limit)
    {
      for i := 0 to |wakes|
        invariant alarms.State() == IntegrationModel.ScheduleAll(old(alarms.State()), wakes[..i], now, limit)
      {
        ScheduleAllSnoc(old(alarms.State()), wakes, now, limit, i);
        ScheduleAt(wakes[i], now);
      }
      assert wakes[..|wakes|] == wakes;
    }

    // -------------------------------------------------------------- deliveries

    method DispatchDelivery(id: string, error: Option<string>, now: int)
      modifies this`deliveries, alarms
      ensures State() == Dispatch(old(State()), id, error, now)
      ensures deliveries.Keys == old(deliveries).Keys
    {
      if !active || id !in deliveries {
        return;
      }
      var delivery := deliveries[id];
      if delivery.settledAt.Some? || delivery.status.Dead? {
        return;
      }
      if error.Some? {
        delivery := delivery.(lastError := error);
      } else {
        delivery := delivery.(
          attempts := delivery.attempts + 1,
          status := if delivery.readAt.Some? then Read else Dispatched,
          lastDispatchAt := Some(now),
          lastError := None);
      }
      delivery := ArmRedelivery(delivery, now);
      deliveries := deliveries[id := delivery];
      if delivery.nextAttemptAt.Some? {
        ScheduleAt(delivery.nextAttemptAt.value, now);
      }
    }

    method IngestEvent(event: Event, id: string, tokenGranted: bool, error: Option<string>, now: int) returns (result: IngestResult)
      modifies this`deliveries, this`eventKeys, alarms
      ensures (State(), result) == Ingest(old(State()), event, id, tokenGranted, error, now)
    {
      if !active {
        return Paused;
      }
      if !tokenGranted {
        return RateLimited;
      }
      if event.key in eventKeys {
        return Duplicate(eventKeys[event.key]);
      }
      eventKeys := eventKeys[event.key := id];
      deliveries := deliveries[id := NewDelivery(event)];
      DispatchDelivery(id, error, now);
      return Queued(id);
    }

    method ReadMessage(id: string, caller: Caller, now: int) returns (shown: Result<Shown, CallError>)
      modifies this`deliveries, alarms
      ensures (State(), shown) == ReadCall(old(State()), id, caller, now)
    {
      if id !in deliveries {
        return Err(UnknownDelivery);
      }
      var delivery := deliveries[id];
      if !Owns(delivery, caller) {
        return Err(NotOwner);
      }
      var firstRead := delivery.readAt.None?;
      if firstRead && delivery.settledAt.None? {
        delivery := ArmRedelivery(delivery.(readAt := Some(now), status := Read), now);
        deliveries := deliveries[id := delivery];
        if delivery.nextAttemptAt.Some? {
          ScheduleAt(delivery.nextAttemptAt.value, now);
        }
      }
      return Ok(Shown(delivery.status, firstRead, delivery.settledAt.Some?));
    }

    method RecordInjection(id: string, targetAddr: string, via: string, now: int)
      modifies this`deliveries
      ensures State() == IntegrationModel.RecordInjection(old(State()), id, targetAddr, via, now)
    {
      if id !in deliveries || deliveries[id].targetAddr != targetAddr {
        return;
      }
      var delivery := deliveries[id];
      if delivery.settledAt.Some? || delivery.status.Dead? {
        return;
      }
      delivery := delivery.(injections := delivery.injections + 1, injectedVia := Some(via), injectedAt := Some(now));
      if SessionHeld(delivery) {
        delivery := delivery.(nextAttemptAt := None);
      }
      deliveries := deliveries[id := delivery];
    }

    method MarkHandled(id: string, caller: Caller, now: int) returns (duplicate: Result<bool, CallError>)
      modifies this`deliveries, this`cancels
      ensures (State(), duplicate) == HandledCall(old(State()), id, caller, now)
      ensures cancels == old(cancels) + if duplicate == Ok(false) then [id] else []
    {
      if id !in deliveries {
        return Err(UnknownDelivery);
      }
      if !Owns(deliveries[id], caller) {
        return Err(NotOwner);
      }
      var settled := FinishHandled(id, now);
      return Ok(settled);
    }

    method FinishHandled(id: string, now: int) returns (duplicate: bool)
      requires id in deliveries
      modifies this`deliveries, this`cancels
      ensures (State(), duplicate) == IntegrationModel.FinishHandled(old(State()), id, now)
      ensures cancels == old(cancels) + if duplicate then [] else [id]
    {
      if deliveries[id].settledAt.Some? {
        return true;
      }
      deliveries := deliveries[id := deliveries[id].(status := Handled, settledAt := Some(now), nextAttemptAt := None)];
      cancels := cancels + [id];
      return false;
    }

    method SettleConversation(conversation: string, now: int) returns (ids: seq<string>)
      modifies this`deliveries, this`cancels
      ensures State() == IntegrationModel.SettleConversation(old(State()), conversation, now)
      ensures Storage.Lists(ids, deliveries.Keys, Storage.NameBefore)
      ensures cancels == old(cancels) + SettledBy(old(deliveries), ids, conversation)
    {
      ids := StoredNames(deliveries.Keys);
      assert forall id :: id in deliveries <==> id in ids;
      SettleListed(ids, conversation, now);
    }

    method SettleListed(ids: seq<string>, conversation: string, now: int)
      requires forall id :: id in deliveries <==> id in ids
      modifies this`deliveries, this`cancels
      ensures State() == IntegrationModel.SettleConversation(old(State()), conversation, now)
      ensures cancels == old(cancels) + SettledBy(old(deliveries), ids, conversation)
    {
      var listed := deliveries;
      assert SettledAmong(listed, [], conversation, now) == listed;
      for i := 0 to |ids|
        invariant deliveries == SettledAmong(listed, ids[..i], conversation, now)
        invariant cancels == old(cancels) + SettledBy(listed, ids[..i], conversation)
      {
        var id := ids[i];
        assert id in ids;
        SettledSnoc(listed, ids, conversation, now, i);
        var delivery := listed[id];
        if delivery.settledAt.None? && delivery.conversation == conversation {
          deliveries := deliveries[id := delivery.(status := Handled, settledAt := Some(now), nextAttemptAt := None)];
          cancels := cancels + [id];
        }
      }
      assert ids[..|ids|] == ids;
    }

    /** Open to dead deliveries only; the answer says whether it was accepted. */
    method Requeue(id: string, error: Option<string>, now: int) returns (accepted: bool)
      modifies this`deliveries, alarms
      ensures (State(), accepted) == IntegrationModel.Requeue(old(State()), id, error, now)
    {
      if id !in deliveries || !deliveries[id].status.Dead? {
        return false;
      }
      deliveries := deliveries[id := deliveries[id].(
        status := Pending, attempts := 0, lastError := None, settledAt := None, nextAttemptAt := Some(now))];
      DispatchDelivery(id, error, now);
      return true;
    }

    // -------------------------------------------------------------- replies

    method PostRecordedReply(id: string, reply: Reply, error: Option<string>, now: int) returns (posted: bool)
      requires id in deliveries
      modifies this`deliveries, this`replies, this`cancels
      ensures posted <==> error.None?
      ensures cancels == old(cancels) + if posted then [id] else []
      ensures State() == if posted then Posted(old(State()), id, reply, now) else old(State())
    {
      if error.Some? {
        return false;
      }
      replies := replies[id := reply.(postedAt := Some(now), postError := None, nextAttemptAt := None)];
      deliveries := deliveries[id := deliveries[id].(status := Handled, settledAt := Some(now), nextAttemptAt := None)];
      cancels := cancels + [id];
      return true;
    }

    method ChatReply(request: ReplyRequest, withinPlan: bool, canReply: bool, error: Option<string>, now: int)
      returns (result: Result<ReplyResult, CallError>)
      requires request.caller.Named?
      modifies this`deliveries, this`replies, this`cancels, alarms
      ensures (State(), result) == ReplyCall(old(State()), request, withinPlan, canReply, error, now)
      ensures cancels == old(cancels) + if result.Ok? && !result.value.duplicate && result.value.posted then [request.id] else []
    {
      var id := request.id;
      if id in replies {
        var prior := replies[id];
        return Ok(ReplyResult(prior.postedAt.Some?, true, prior.message, prior.postError));
      }
      if !withinPlan {
        return Err(PlanLimit);
      }
      if id !in deliveries {
        return Err(UnknownDelivery);
      }
      var delivery := deliveries[id];
      if !Owns(delivery, request.caller) {
        return Err(NotOwner);
      }
      if delivery.conversation != request.conversation {
        return Err(ConversationMismatch);
      }
      if !canReply {
        return Err(OneWay);
      }
      var reply := Reply(request.caller.addr, request.message, None, Some(now), None);
      replies := replies[id := reply];
      deliveries := deliveries[id := delivery.(status := Replied, nextAttemptAt := None)];
      var posted := PostRecordedReply(id, reply, error, now);
      if !posted {
        replies := replies[id := reply.(postError := error, nextAttemptAt := Some(now + REPLY_RETRY_MS))];
        ScheduleAt(now + REPLY_RETRY_MS, now);
      }
      return Ok(ReplyResult(posted, false, request.message, error));
    }

    method RetryReply(id: string, reply: Reply, error: Option<string>, now: int)
      requires id in replies
      modifies this`deliveries, this`replies, this`cancels
      ensures State() == Retried(old(State()), id, reply, error, now)
      ensures cancels == old(cancels) + if Retries(reply, now) && id in old(deliveries) && error.None? then [id] else []
      ensures deliveries.Keys == old(deliveries).Keys && replies.Keys == old(replies).Keys
    {
      if reply.postedAt.Some? || id !in deliveries {
        return;
      }
      if reply.nextAttemptAt.Some? && reply.nextAttemptAt.value > now {
        return;
      }
      var posted := PostRecordedReply(id, reply, error, now);
      if !posted {
        replies := replies[id := reply.(postError := error, nextAttemptAt := Some(now + REPLY_RETRY_MS))];
      }
    }

    method RetryReplies(errors: map<string, string>, now: int) returns (ids: seq<string>)
      modifies this`deliveries, this`replies, this`cancels
      ensures Storage.Lists(ids, old(replies).Keys, Storage.NameBefore)
      ensures State() == IntegrationModel.RetryReplies(old(State()), ids, errors, now)
      ensures cancels == old(cancels) + PostedBy(old(deliveries), old(replies), ids, errors, now)
      ensures deliveries.Keys == old(deliveries).Keys && replies.Keys == old(replies).Keys
    {
      ids := StoredNames(replies.Keys);
      assert forall id :: id in ids ==> id in replies;
      RetryListed(ids, errors, now);
    }

    method RetryListed(ids: seq<string>, errors: map<string, string>, now: int)
      requires forall id :: id in ids ==> id in replies
      modifies this`deliveries, this`replies, this`cancels
      ensures State() == IntegrationModel.RetryReplies(old(State()), ids, errors, now)
      ensures cancels == old(cancels) + PostedBy(old(deliveries), old(replies), ids, errors, now)
      ensures deliveries.Keys == old(deliveries).Keys && replies.Keys == old(replies).Keys
    {
      ghost var s := State();
      var listed := replies;
      for i := 0 to |ids|
        invariant State() == IntegrationModel.RetryReplies(s, ids[..i], errors, now)
        invariant deliveries.Keys == s.deliveries.Keys && replies.Keys == s.replies.Keys
        invariant cancels == old(cancels) + PostedBy(s.deliveries, s.replies, ids[..i], errors, now)
      {
        assert ids[i] in ids;
        RetryRepliesSnoc(s, ids, errors, now, i);
        PostedBySnoc(s.deliveries, s.replies, ids, errors, now, i);
        RetryReply(ids[i], listed[ids[i]], ErrorFor(errors, ids[i]), now);
      }
      assert ids[..|ids|] == ids;
    }

    // -------------------------------------------------------------- the alarm

    method DispatchDue(errors: map<string, string>, now: int) returns (ids: seq<string>)
      modifies this`deliveries, alarms
      ensures Storage.Lists(ids, old(deliveries).Keys, Storage.NameBefore)
      ensures State() == IntegrationModel.DispatchDue(old(State()), ids, errors, now)
      ensures deliveries.Keys == old(deliveries).Keys
    {
      ghost var s := State();
      ids := StoredNames(deliveries.Keys);
      var listed := deliveries;
      for i := 0 to |ids|
        invariant State() == IntegrationModel.DispatchDue(s, ids[..i], errors, now)
        invariant deliveries.Keys == s.deliveries.Keys
      {
        var id := ids[i];
        assert id in ids;
        DispatchDueSnoc(s, ids, errors, now, i);
        var delivery := listed[id];
        if delivery.settledAt.None? && !delivery.status.Dead?
           && delivery.nextAttemptAt.Some? && delivery.nextAttemptAt.value <= now {
          DispatchDelivery(id, ErrorFor(errors, id), now);
        }
      }
      assert ids[..|ids|] == ids;
    }

    /** The earliest instant any unsettled delivery or unposted reply waits for. */
    method NextWake(listing: Listing) returns (next: Option<int>)
      requires IsListing(State(), listing)
      ensures next == NextReply(State(), NextDelivery(State(), listing.deliveries), listing.replies)
    {
      next := None;
      for i := 0 to |listing.deliveries|
        invariant next == NextDelivery(State(), listing.deliveries[..i])
      {
        assert listing.deliveries[i] in listing.deliveries;
        NextDeliverySnoc(State(), listing.deliveries, i);
        var delivery := deliveries[listing.deliveries[i]];
        if delivery.settledAt.None? && delivery.nextAttemptAt.Some? {
          next := Earlier(next, delivery.nextAttemptAt.value);
        }
      }
      assert listing.deliveries[..|listing.deliveries|] == listing.deliveries;
      ghost var first := next;
      for i := 0 to |listing.replies|
        invariant next == NextReply(State(), first, listing.replies[..i])
      {
        assert listing.replies[i] in listing.replies;
        NextReplySnoc(State(), first, listing.replies, i);
        var reply := replies[listing.replies[i]];
        if reply.postedAt.None? && reply.nextAttemptAt.Some? {
          next := Earlier(next, reply.nextAttemptAt.value);
        }
      }
      assert listing.replies[..|listing.replies|] == listing.replies;
    }

    method StoredKeys() returns (listing: Listing)
      ensures Storage.Lists(listing.deliveries, deliveries.Keys, Storage.NameBefore)
      ensures Storage.Lists(listing.replies, replies.Keys, Storage.NameBefore)
      ensures IsListing(State(), listing)
    {
      var ids := StoredNames(deliveries.Keys);
      var replyIds := StoredNames(replies.Keys);
      listing := Listing(ids, replyIds);
    }

    method ScheduleNext(now: int) returns (listing: Listing)
      modifies alarms
      ensures Storage.Lists(listing.deliveries, deliveries.Keys, Storage.NameBefore)
      ensures Storage.Lists(listing.replies, replies.Keys, Storage.NameBefore)
      ensures State() == IntegrationModel.ScheduleNext(old(State()), listing, now)
    {
      listing := StoredKeys();
      var next := NextWake(listing);
      if active && healthPing {
        next := Earlier(next, now + HEALTH_PING_INTERVAL_MS);
      }
      if next.Some? {
        ScheduleAt(next.value, now);
      }
    }

    /** The handler; the platform has cleared the alarm before it runs. */
    method Alarm(replyErrors: map<string, string>, dispatchErrors: map<string, string>, wakes: seq<int>, now: int)
      returns (listing: Listing)
      modifies this`deliveries, this`replies, this`cancels, alarms
      ensures IsListing(old(State()), listing)
      ensures cancels == old(cancels) + if active then PostedBy(old(deliveries), old(replies), listing.replies, replyErrors, now) else []
      ensures State() == IntegrationModel.Alarm(old(State()), AlarmEnv(listing, replyErrors, dispatchErrors, wakes), now)
    {
      listing := StoredKeys();
      alarms.ClearAlarm();
      if !active {
        return;
      }
      var replyIds := RetryReplies(replyErrors, now);
      var dueIds := DispatchDue(dispatchErrors, now);
      ScheduleAll(wakes, now);
      var last := ScheduleNext(now);
      SameKeys(listing, replyIds, dueIds, last, old(deliveries).Keys, old(replies).Keys);
    }

    method Pause()
      modifies this`active
      ensures State() == IntegrationModel.Pause(old(State()))
    {
      active := false;
    }

    /** Dispatches what is due and puts the connector on the clock; nothing else is scheduled. */
    method Resume(dispatchErrors: map<string, string>, wakes: seq<int>, now: int) returns (listing: Listing)
      modifies this`active, this`deliveries, alarms
      ensures IsListing(old(State()), listing)
      ensures State() == IntegrationModel.Resume(old(State()), AlarmEnv(listing, map[], dispatchErrors, wakes), now)
    {
      listing := StoredKeys();
      active := true;
      var dueIds := DispatchDue(dispatchErrors, now);
      Storage.NamesOrdered(old(deliveries).Keys);
      Storage.ListingUnique(listing.deliveries, dueIds, old(deliveries).Keys, Storage.NameBefore);
      ScheduleAll(wakes, now);
    }
  }

  /** Listings taken at different moments agree while no key is added or removed. */
  lemma SameKeys(listing: Listing, replyIds: seq<string>, dueIds: seq<string>, last: Listing, keys: set<string>, replyKeys: set<string>)
    requires Storage.Lists(listing.deliveries, keys, Storage.NameBefore) && Storage.Lists(listing.replies, replyKeys, Storage.NameBefore)
    requires Storage.Lists(replyIds, replyKeys, Storage.NameBefore) && Storage.Lists(dueIds, keys, Storage.NameBefore)
    requires Storage.Lists(last.deliveries, keys, Storage.NameBefore) && Storage.Lists(last.replies, replyKeys, Storage.NameBefore)
    ensures replyIds == listing.replies && dueIds == listing.deliveries && last == listing
  {
    Storage.NamesOrdered(keys);
    Storage.NamesOrdered(replyKeys);
    Storage.ListingUnique(listing.deliveries, dueIds, keys, Storage.NameBefore);
    Storage.ListingUnique(listing.deliveries, last.deliveries, keys, Storage.NameBefore);
    Storage.ListingUnique(listing.replies, replyIds, replyKeys, Storage.NameBefore);
    Storage.ListingUnique(listing.replies, last.replies, replyKeys, Storage.NameBefore);
  }
}
