/**
 What the operations of an integration come to, told by the stored fields
 (src/do/integration.ts): who is dispatched, read, answered and settled, and what is
 stored for them then.
 */
module IntegrationExact {
  import opened Common
  import AlarmBudget
  import opened IntegrationModel
  import IntegrationLaws

  /** Nothing but the delivery of `id` and the schedule has changed. */
  ghost predicate OnlyDelivery(s: Integration, s': Integration, id: string) {
    && s'.active == s.active && s'.healthPing == s.healthPing && s'.limit == s.limit
    && s'.replies == s.replies && s'.eventKeys == s.eventKeys && s'.deliveries.Keys == s.deliveries.Keys
    && forall other :: other in s.deliveries && other != id ==> s'.deliveries[other] == s.deliveries[other]
  }

  /** What a dispatch makes of a delivery: an attempt more, or the target's error; and the next try on the clock unless a session holds it. */
  predicate Redelivered(d: Delivery, d': Delivery, error: Option<string>, now: int) {
    && (error.None? ==> d'.attempts == d.attempts + 1 && d'.lastDispatchAt == Some(now) && d'.lastError.None?
                        && d'.status == if d.readAt.Some? then Read else Dispatched)
    && (error.Some? ==> d'.attempts == d.attempts && d'.lastDispatchAt == d.lastDispatchAt && d'.status == d.status && d'.lastError == error)
    && d'.nextAttemptAt == (if d.injectedVia == Some("adapter") && d.toAgent then None else Some(now + RedeliveryDelay(d')))
    && d'.conversation == d.conversation && d'.targetAddr == d.targetAddr && d'.toAgent == d.toAgent && d'.readAt == d.readAt
    && d'.injectedVia == d.injectedVia && d'.injectedAt == d.injectedAt && d'.injections == d.injections && d'.settledAt == d.settledAt
  }

  /** A dispatch happens exactly to a delivery that is open, of an active integration. */
  lemma DispatchExact(s: Integration, id: string, error: Option<string>, now: int)
    ensures var s' := Dispatch(s, id, error, now);
            if s.active && id in s.deliveries && s.deliveries[id].settledAt.None? && s.deliveries[id].status != Dead
            then OnlyDelivery(s, s', id) && Redelivered(s.deliveries[id], s'.deliveries[id], error, now)
            else s' == s
  {
  }

  /** Open, and its retry has come. */
  predicate DueFor(d: Delivery, now: int) {
    d.settledAt.None? && d.status != Dead && d.nextAttemptAt.Some? && d.nextAttemptAt.value <= now
  }

  predicate ListedOnce(ids: seq<string>) {
    forall i, j :: 0 <= i < j < |ids| ==> ids[i] != ids[j]
  }

  /** The scan of an active integration redelivers exactly the listed deliveries that are due, each once. */
  lemma {:induction false} DueScanExact(s: Integration, ids: seq<string>, errors: map<string, string>, now: int)
    requires s.active && ListedOnce(ids)
    ensures var s' := DispatchDue(s, ids, errors, now);
            && s'.active && s'.replies == s.replies && s'.deliveries.Keys == s.deliveries.Keys
            && (forall id :: id in s.deliveries ==>
                  if id in ids && DueFor(s.deliveries[id], now)
                  then Redelivered(s.deliveries[id], s'.deliveries[id], if id in errors then Some(errors[id]) else None, now)
                  else s'.deliveries[id] == s.deliveries[id])
  {
    if ids != [] {
      var n := |ids| - 1;
      DueScanExact(s, ids[..n], errors, now);
      assert ids == ids[..n] + [ids[n]] && ids[n] !in ids[..n];
      var s0 := DispatchDue(s, ids[..n], errors, now);
      DispatchExact(s0, ids[n], if ids[n] in errors then Some(errors[ids[n]]) else None, now);
    }
  }

  // ---------------------------------------------------------------- replies that are due

  /** Not posted, and its retry has come. */
  predicate ReplyDueFor(reply: Reply, now: int) {
    reply.postedAt.None? && (reply.nextAttemptAt.None? || reply.nextAttemptAt.value <= now)
  }

  predicate Handled(d: Delivery, d': Delivery, now: int) {
    d' == d.(status := IntegrationModel.Handled, settledAt := Some(now), nextAttemptAt := None)
  }

  /** What a retry makes of a due reply: posted, or dated again with the connector's error. */
  predicate RetriedReply(reply: Reply, reply': Reply, error: Option<string>, now: int) {
    && reply'.caller == reply.caller && reply'.message == reply.message
    && (error.None? ==> reply'.postedAt == Some(now) && reply'.postError.None? && reply'.nextAttemptAt.None?)
    && (error.Some? ==> reply'.postedAt.None? && reply'.postError == error && reply'.nextAttemptAt == Some(now + 60_000))
  }

  predicate PostsNow(s: Integration, id: string, errors: map<string, string>, now: int) {
    id in s.replies && ReplyDueFor(s.replies[id], now) && id !in errors
  }

  /** The replies after a retry of the listed ones. */
  ghost predicate RepliesAfter(s: Integration, s': Integration, ids: seq<string>, errors: map<string, string>, now: int) {
    && s'.replies.Keys == s.replies.Keys
    && forall id :: id in s.replies ==>
         if id in ids && ReplyDueFor(s.replies[id], now)
         then RetriedReply(s.replies[id], s'.replies[id], if id in errors then Some(errors[id]) else None, now)
         else s'.replies[id] == s.replies[id]
  }

  /** And their deliveries. */
  ghost predicate DeliveriesAfter(s: Integration, s': Integration, ids: seq<string>, errors: map<string, string>, now: int) {
    && s'.deliveries.Keys == s.deliveries.Keys
    && forall id :: id in s.deliveries ==>
         if id in ids && PostsNow(s, id, errors, now) then Handled(s.deliveries[id], s'.deliveries[id], now)
         else s'.deliveries[id] == s.deliveries[id]
  }

  /** The retries post exactly the listed replies that are due and that the connector takes, and settle their deliveries; they date the rest of the due ones again. */
  lemma {:induction false} RetriesExact(s: Integration, ids: seq<string>, errors: map<string, string>, now: int)
    requires ListedOnce(ids) && forall id :: id in s.replies ==> id in s.deliveries
    ensures var s' := RetryReplies(s, ids, errors, now);
            && s'.active == s.active && s'.eventKeys == s.eventKeys
            && RepliesAfter(s, s', ids, errors, now) && DeliveriesAfter(s, s', ids, errors, now)
  {
    if ids != [] {
      var n := |ids| - 1;
      var last := ids[n];
      RetriesExact(s, ids[..n], errors, now);
      assert forall id :: id in ids <==> id in ids[..n] || id == last;
      assert last !in ids[..n];
      if last in s.replies {
        var s0 := RetryReplies(s, ids[..n], errors, now);
        RetriedExact(s0, last, s.replies[last], if last in errors then Some(errors[last]) else None, now);
        RepliesStep(s, s0, RetryReplies(s, ids, errors, now), ids, errors, now);
        DeliveriesStep(s, s0, RetryReplies(s, ids, errors, now), ids, errors, now);
      }
    }
  }

  lemma RepliesStep(s: Integration, s0: Integration, s': Integration, ids: seq<string>, errors: map<string, string>, now: int)
    requires ids != [] && ids[|ids| - 1] in s.replies && ids[|ids| - 1] !in ids[..|ids| - 1]
    requires RepliesAfter(s, s0, ids[..|ids| - 1], errors, now) && s'.replies.Keys == s0.replies.Keys
    requires var last := ids[|ids| - 1];
             && (forall other :: other in s0.replies && other != last ==> s'.replies[other] == s0.replies[other])
             && (if ReplyDueFor(s.replies[last], now)
                 then RetriedReply(s.replies[last], s'.replies[last], if last in errors then Some(errors[last]) else None, now)
                 else s'.replies[last] == s.replies[last])
    ensures RepliesAfter(s, s', ids, errors, now)
  {
    assert forall id :: id in ids <==> id in ids[..|ids| - 1] || id == ids[|ids| - 1];
  }

  lemma DeliveriesStep(s: Integration, s0: Integration, s': Integration, ids: seq<string>, errors: map<string, string>, now: int)
    requires ids != [] && ids[|ids| - 1] in s.deliveries && ids[|ids| - 1] !in ids[..|ids| - 1]
    requires DeliveriesAfter(s, s0, ids[..|ids| - 1], errors, now) && s'.deliveries.Keys == s0.deliveries.Keys
    requires var last := ids[|ids| - 1];
             && (forall other :: other in s0.deliveries && other != last ==> s'.deliveries[other] == s0.deliveries[other])
             && (if PostsNow(s, last, errors, now) then Handled(s.deliveries[last], s'.deliveries[last], now)
                 else s'.deliveries[last] == s.deliveries[last])
    ensures DeliveriesAfter(s, s', ids, errors, now)
  {
    assert forall id :: id in ids <==> id in ids[..|ids| - 1] || id == ids[|ids| - 1];
  }

  lemma RetriedExact(s: Integration, id: string, reply: Reply, error: Option<string>, now: int)
    requires id in s.deliveries && id in s.replies && s.replies[id] == reply
    ensures var s' := Retried(s, id, reply, error, now);
            && s'.active == s.active && s'.eventKeys == s.eventKeys && s'.deliveries.Keys == s.deliveries.Keys && s'.replies.Keys == s.replies.Keys
            && (forall other :: other in s.replies && other != id ==> s'.replies[other] == s.replies[other])
            && (forall other :: other in s.deliveries && other != id ==> s'.deliveries[other] == s.deliveries[other])
            && (if ReplyDueFor(reply, now) then RetriedReply(reply, s'.replies[id], error, now) else s'.replies[id] == reply)
            && (if ReplyDueFor(reply, now) && error.None? then Handled(s.deliveries[id], s'.deliveries[id], now)
                else s'.deliveries[id] == s.deliveries[id])
  {
  }

  // ---------------------------------------------------------------- the alarm

  /**
   The handler posts what is due and redelivers what is due and was not settled by that;
   nothing it leaves open or unposted is still due.
   */
  lemma AlarmExact(s: Integration, env: AlarmEnv, now: int)
    requires s.active && IsListing(s, env.listing) && forall id :: id in s.replies ==> id in s.deliveries
    ensures var s' := Alarm(s, env, now);
            && s'.deliveries.Keys == s.deliveries.Keys && s'.replies.Keys == s.replies.Keys
            && (forall id :: id in s.deliveries ==> DeliveryAtAlarm(s, env, now, id, s'.deliveries[id]))
            && (forall id :: id in s.replies ==>
                  if ReplyDueFor(s.replies[id], now)
                  then RetriedReply(s.replies[id], s'.replies[id], if id in env.replyErrors then Some(env.replyErrors[id]) else None, now)
                  else s'.replies[id] == s.replies[id])
  {
    var fired := s.(budget := s.budget.(alarm := None));
    var retried := RetryReplies(fired, env.listing.replies, env.replyErrors, now);
    RetriesExact(fired, env.listing.replies, env.replyErrors, now);
    DueScanExact(retried, env.listing.deliveries, env.dispatchErrors, now);
    var s' := DispatchDue(retried, env.listing.deliveries, env.dispatchErrors, now);
    forall id | id in s.deliveries ensures DeliveryAtAlarm(s, env, now, id, s'.deliveries[id]) {
      assert id in env.listing.deliveries;
      assert id in s.replies ==> id in env.listing.replies;
      assert PostsNow(fired, id, env.replyErrors, now) ==> Handled(s.deliveries[id], retried.deliveries[id], now);
    }
    forall id | id in s.replies ensures id in env.listing.replies {
    }
  }

  /** What the handler makes of one delivery. */
  predicate DeliveryAtAlarm(s: Integration, env: AlarmEnv, now: int, id: string, d': Delivery)
    requires id in s.deliveries
  {
    if id in s.replies && ReplyDueFor(s.replies[id], now) && id !in env.replyErrors
    then Handled(s.deliveries[id], d', now)
    else if DueFor(s.deliveries[id], now)
    then Redelivered(s.deliveries[id], d', if id in env.dispatchErrors then Some(env.dispatchErrors[id]) else None, now)
    else d' == s.deliveries[id]
  }

  lemma NothingLeftDue(s: Integration, env: AlarmEnv, now: int)
    requires s.active && IsListing(s, env.listing) && forall id :: id in s.replies ==> id in s.deliveries
    ensures var s' := Alarm(s, env, now);
            && (forall id :: id in s'.deliveries ==> !DueFor(s'.deliveries[id], now))
            && (forall id :: id in s'.replies ==> !ReplyDueFor(s'.replies[id], now))
  {
    AlarmExact(s, env, now);
    var s' := Alarm(s, env, now);
    forall id | id in s'.deliveries ensures !DueFor(s'.deliveries[id], now) {
      AfterwardsNotDue(s.deliveries[id], s'.deliveries[id], if id in env.dispatchErrors then Some(env.dispatchErrors[id]) else None, now);
    }
  }

  lemma AfterwardsNotDue(d: Delivery, d': Delivery, error: Option<string>, now: int)
    ensures Redelivered(d, d', error, now) || Handled(d, d', now) ==> !DueFor(d', now)
  {
    IntegrationLaws.RedeliveryDelayShape(d');
  }

  // ---------------------------------------------------------------- the clock

  /** A delivery or a reply waits for the instant. */
  ghost predicate WaitsFor(s: Integration, at: int) {
    || (exists id :: id in s.deliveries && s.deliveries[id].settledAt.None? && s.deliveries[id].nextAttemptAt == Some(at))
    || (exists id :: id in s.replies && s.replies[id].postedAt.None? && s.replies[id].nextAttemptAt == Some(at))
  }

  lemma {:induction false} NextDeliveryExact(s: Integration, ids: seq<string>)
    ensures var next := NextDelivery(s, ids);
            && (next.Some? ==> exists id :: id in ids && id in s.deliveries && s.deliveries[id].settledAt.None? && s.deliveries[id].nextAttemptAt == next)
            && (forall id :: id in ids && id in s.deliveries && s.deliveries[id].settledAt.None? && s.deliveries[id].nextAttemptAt.Some? ==>
                  next.Some? && next.value <= s.deliveries[id].nextAttemptAt.value)
  {
    if ids != [] {
      var n := |ids| - 1;
      NextDeliveryExact(s, ids[..n]);
      assert ids == ids[..n] + [ids[n]];
    }
  }

  lemma {:induction false} NextReplyExact(s: Integration, first: Option<int>, ids: seq<string>)
    ensures var next := NextReply(s, first, ids);
            && (next.Some? ==> next == first || exists id :: id in ids && id in s.replies && s.replies[id].postedAt.None? && s.replies[id].nextAttemptAt == next)
            && (first.Some? ==> next.Some? && next.value <= first.value)
            && (forall id :: id in ids && id in s.replies && s.replies[id].postedAt.None? && s.replies[id].nextAttemptAt.Some? ==>
                  next.Some? && next.value <= s.replies[id].nextAttemptAt.value)
  {
    if ids != [] {
      var n := |ids| - 1;
      NextReplyExact(s, first, ids[..n]);
      assert ids == ids[..n] + [ids[n]];
    }
  }

  /** The instant the handler asks for last is the earliest anything waits for, or a minute on for the health ping. */
  lemma NextWakeExact(s: Integration, l: Listing)
    requires IsListing(s, l)
    ensures var next := NextReply(s, NextDelivery(s, l.deliveries), l.replies);
            && (next.Some? <==> exists at :: WaitsFor(s, at))
            && (next.Some? ==> WaitsFor(s, next.value) && forall at :: WaitsFor(s, at) ==> next.value <= at)
  {
    NextDeliveryExact(s, l.deliveries);
    NextReplyExact(s, NextDelivery(s, l.deliveries), l.replies);
    var next := NextReply(s, NextDelivery(s, l.deliveries), l.replies);
    if next.Some? {
      assert WaitsFor(s, next.value);
    }
    forall at | WaitsFor(s, at) ensures next.Some? && next.value <= at {
      assert forall id :: id in s.deliveries ==> id in l.deliveries;
      assert forall id :: id in s.replies ==> id in l.replies;
    }
  }

  /** What is asked for last: the earliest instant anything waits for, and in an active integration that pings, the next ping. */
  ghost predicate IsLastWake(s: Integration, now: int, at: Option<int>) {
    if at.None? then !(s.active && s.healthPing) && forall t :: !WaitsFor(s, t)
    else
      && (WaitsFor(s, at.value) || (s.active && s.healthPing && at.value == now + 60_000))
      && (forall t :: WaitsFor(s, t) ==> at.value <= t)
      && (s.active && s.healthPing ==> at.value <= now + 60_000)
  }

  /** The alarm is left alone if it comes no later; otherwise it is moved there, or with the budget spent to the end of the hour. */
  predicate MovesAlarm(b: AlarmBudget.Budget, b': AlarmBudget.Budget, at: int, now: int, limit: nat) {
    if b.alarm.Some? && b.alarm.value <= at then b' == b
    else b'.alarm == Some(if AlarmBudget.Count(AlarmBudget.Roll(b, now), AlarmBudget.HourStart(now)) < limit then at
                          else AlarmBudget.HourEnd(now))
  }

  lemma ScheduleExact(b: AlarmBudget.Budget, at: int, now: int, limit: nat)
    requires AlarmBudget.Inv(b, now, limit)
    ensures MovesAlarm(b, ScheduleAt(b, at, now, limit), at, now, limit)
  {
    AlarmBudget.ArmKeeps(b, now, at, limit);
  }

  lemma LastWakeExact(s: Integration, l: Listing, now: int) returns (at: Option<int>)
    requires IsListing(s, l) && AlarmBudget.Inv(s.budget, now, s.limit)
    ensures IsLastWake(s, now, at)
    ensures if at.None? then ScheduleNext(s, l, now) == s
            else ScheduleNext(s, l, now) == s.(budget := ScheduleNext(s, l, now).budget)
                 && MovesAlarm(s.budget, ScheduleNext(s, l, now).budget, at.value, now, s.limit)
  {
    NextWakeExact(s, l);
    var next := NextReply(s, NextDelivery(s, l.deliveries), l.replies);
    at := if s.active && s.healthPing then Earlier(next, now + HEALTH_PING_INTERVAL_MS) else next;
    forall t | WaitsFor(s, t) ensures next.Some? && next.value <= t && at.Some? && at.value <= t {
    }
    if at.Some? {
      assert next.Some? ==> WaitsFor(s, next.value);
      assert at == next || (s.active && s.healthPing && at.value == now + 60_000);
      ScheduleExact(s.budget, at.value, now, s.limit);
    } else {
      assert next.None?;
    }
    assert IsLastWake(s, now, at);
  }

  // ---------------------------------------------------------------- single operations

  /** An event is taken in exactly if the integration is active, its rate allows it and its key is new; it is dispatched at once. */
  lemma IngestExact(s: Integration, e: Event, id: string, tokenGranted: bool, error: Option<string>, now: int)
    requires id !in s.deliveries
    ensures var (s', result) := Ingest(s, e, id, tokenGranted, error, now);
            && (result == Paused <==> !s.active)
            && (result == RateLimited <==> s.active && !tokenGranted)
            && (result.Duplicate? <==> s.active && tokenGranted && e.key in s.eventKeys)
            && (result.Duplicate? ==> result.id == s.eventKeys[e.key])
            && (!result.Queued? ==> s' == s)
            && (result.Queued? ==>
                  && result.id == id && s'.eventKeys == s.eventKeys[e.key := id] && s'.replies == s.replies
                  && s'.deliveries.Keys == s.deliveries.Keys + {id}
                  && (forall other :: other in s.deliveries ==> s'.deliveries[other] == s.deliveries[other])
                  && var d := s'.deliveries[id];
                     && d.conversation == e.conversation && d.targetAddr == e.targetAddr && d.toAgent == e.toAgent
                     && d.readAt.None? && d.injectedVia.None? && d.injectedAt.None? && d.injections == 0 && d.settledAt.None?
                     && d.lastError == error && d.nextAttemptAt == Some(now + 300_000)
                     && d.attempts == (if error.None? then 1 else 0)
                     && d.status == (if error.None? then Dispatched else Pending)
                     && d.lastDispatchAt == if error.None? then Some(now) else None)
  {
    if s.active && tokenGranted && e.key !in s.eventKeys {
      var created := s.(eventKeys := s.eventKeys[e.key := id], deliveries := s.deliveries[id := NewDelivery(e)]);
      DispatchExact(created, id, error, now);
      IntegrationLaws.RedeliveryDelayShape(Dispatch(created, id, error, now).deliveries[id]);
    }
  }

  /** Who may act on a delivery: an operator, the target itself, or a member of the target room. */
  predicate MayActOn(d: Delivery, caller: Caller) {
    match caller
    case Operator => true
    case Named(addr, member) => d.targetAddr == addr || (!d.toAgent && member)
  }

  predicate RefusedFor(s: Integration, id: string, caller: Caller, error: CallError) {
    if id !in s.deliveries then error == UnknownDelivery
    else !MayActOn(s.deliveries[id], caller) && error == NotOwner
  }

  /** The first read of an open delivery marks it read and dates its redelivery anew; any other read changes nothing. */
  lemma ReadExact(s: Integration, id: string, caller: Caller, now: int)
    ensures var (s', shown) := ReadCall(s, id, caller, now);
            && (shown.Ok? <==> id in s.deliveries && MayActOn(s.deliveries[id], caller))
            && (shown.Err? ==> s' == s && RefusedFor(s, id, caller, shown.error))
            && (shown.Ok? ==>
                  var d, d' := s.deliveries[id], if id in s'.deliveries then s'.deliveries[id] else s.deliveries[id];
                  && OnlyDelivery(s, s', id)
                  && shown.value == Shown(d'.status, d.readAt.None?, d.settledAt.Some?)
                  && (if d.readAt.None? && d.settledAt.None?
                      then d' == d.(readAt := Some(now), status := Read,
                                    nextAttemptAt := if d.injectedVia == Some("adapter") && d.toAgent then None
                                                     else Some(now + RedeliveryDelay(d.(readAt := Some(now)))))
                      else s' == s))
  {
  }

  /** Marking handled settles an open delivery and answers duplicate for a settled one. */
  lemma HandledExact(s: Integration, id: string, caller: Caller, now: int)
    ensures var (s', duplicate) := HandledCall(s, id, caller, now);
            && (duplicate.Ok? <==> id in s.deliveries && MayActOn(s.deliveries[id], caller))
            && (duplicate.Err? ==> s' == s && RefusedFor(s, id, caller, duplicate.error))
            && (duplicate.Ok? ==>
                  && (duplicate.value <==> s.deliveries[id].settledAt.Some?)
                  && (duplicate.value ==> s' == s)
                  && (!duplicate.value ==> OnlyDelivery(s, s', id) && Handled(s.deliveries[id], s'.deliveries[id], now)))
  {
  }

  /** A report counts for an open delivery at that very address; an agent's own session holding it suspends redelivery. */
  lemma InjectionExact(s: Integration, id: string, targetAddr: string, via: string, now: int)
    ensures var s' := RecordInjection(s, id, targetAddr, via, now);
            if id in s.deliveries && s.deliveries[id].targetAddr == targetAddr
               && s.deliveries[id].settledAt.None? && s.deliveries[id].status != Dead
            then
              && OnlyDelivery(s, s', id)
              && s'.deliveries[id] == s.deliveries[id].(
                   injections := s.deliveries[id].injections + 1, injectedVia := Some(via), injectedAt := Some(now),
                   nextAttemptAt := if via == "adapter" && s.deliveries[id].toAgent then None else s.deliveries[id].nextAttemptAt)
            else s' == s
  {
  }

  /** A conversation that is closed settles its open deliveries and no others. */
  lemma SettleExact(s: Integration, conversation: string, now: int)
    ensures var s' := SettleConversation(s, conversation, now);
            && s' == s.(deliveries := s'.deliveries) && s'.deliveries.Keys == s.deliveries.Keys
            && forall id :: id in s.deliveries ==>
                 if s.deliveries[id].settledAt.None? && s.deliveries[id].conversation == conversation
                 then Handled(s.deliveries[id], s'.deliveries[id], now)
                 else s'.deliveries[id] == s.deliveries[id]
  {
  }

  /** The code of the first reason a reply is refused for, in their order. */
  predicate ReplyRefusedFor(s: Integration, r: ReplyRequest, withinPlan: bool, error: CallError) {
    if !withinPlan then error == PlanLimit
    else if r.id !in s.deliveries then error == UnknownDelivery
    else if !MayActOn(s.deliveries[r.id], r.caller) then error == NotOwner
    else if s.deliveries[r.id].conversation != r.conversation then error == ConversationMismatch
    else error == OneWay
  }

  /** A reply recorded is the caller's own text, posted with its delivery settled, or kept for another try in a minute. */
  lemma ReplyExact(s: Integration, r: ReplyRequest, withinPlan: bool, canReply: bool, error: Option<string>, now: int)
    requires r.caller.Named? && r.id !in s.replies
    ensures var (s', result) := ReplyCall(s, r, withinPlan, canReply, error, now);
            && (result.Ok? <==> withinPlan && canReply && r.id in s.deliveries && MayActOn(s.deliveries[r.id], r.caller)
                                && s.deliveries[r.id].conversation == r.conversation)
            && (result.Err? ==> s' == s && ReplyRefusedFor(s, r, withinPlan, result.error))
            && (result.Ok? ==>
                  && result.value == ReplyResult(error.None?, false, r.message, error)
                  && s'.eventKeys == s.eventKeys && s'.replies.Keys == s.replies.Keys + {r.id} && s'.deliveries.Keys == s.deliveries.Keys
                  && (forall other :: other in s.replies ==> s'.replies[other] == s.replies[other])
                  && (forall other :: other in s.deliveries && other != r.id ==> s'.deliveries[other] == s.deliveries[other])
                  && s'.replies[r.id] == Reply(r.caller.addr, r.message, if error.None? then Some(now) else None,
                                               if error.None? then None else Some(now + 60_000), error)
                  && (if error.None? then Handled(s.deliveries[r.id], s'.deliveries[r.id], now)
                      else s'.deliveries[r.id] == s.deliveries[r.id].(status := Replied, nextAttemptAt := None)))
  {
  }

  /** A dead delivery, and no other, is requeued as if new and dispatched at once; a paused integration leaves it due. */
  lemma RequeueExact(s: Integration, id: string, error: Option<string>, now: int)
    ensures var (s', accepted) := Requeue(s, id, error, now);
            && (accepted <==> id in s.deliveries && s.deliveries[id].status == Dead)
            && (!accepted ==> s' == s)
            && (accepted ==>
                  && OnlyDelivery(s, s', id)
                  && var reset := s.deliveries[id].(status := Pending, attempts := 0, lastError := None, settledAt := None, nextAttemptAt := Some(now));
                     if s.active then Redelivered(reset, s'.deliveries[id], error, now) else s'.deliveries[id] == reset)
  {
    if id in s.deliveries && s.deliveries[id].status.Dead? {
      var d := s.deliveries[id].(status := Pending, attempts := 0, lastError := None, settledAt := None, nextAttemptAt := Some(now));
      DispatchExact(s.(deliveries := s.deliveries[id := d]), id, error, now);
    }
  }

  /** Pausing and resuming change the status; resuming redelivers what is due. */
  lemma ResumeExact(s: Integration, env: AlarmEnv, now: int)
    requires IsListing(s, env.listing)
    ensures Pause(s) == s.(active := false)
    ensures var s' := Resume(s, env, now);
            && s'.active && s'.replies == s.replies && s'.deliveries.Keys == s.deliveries.Keys
            && forall id :: id in s.deliveries ==>
                 if DueFor(s.deliveries[id], now)
                 then Redelivered(s.deliveries[id], s'.deliveries[id], if id in env.dispatchErrors then Some(env.dispatchErrors[id]) else None, now)
                 else s'.deliveries[id] == s.deliveries[id]
  {
    DueScanExact(s.(active := true), env.listing.deliveries, env.dispatchErrors, now);
    assert forall id :: id in s.deliveries ==> id in env.listing.deliveries;
  }

  // ---------------------------------------------------------------- what single operations ask of the clock

  /** The alarm after an operation that dates the delivery, or leaves it undated. */
  predicate AsksFor(s: Integration, s': Integration, at: Option<int>, now: int) {
    if at.None? then s'.budget == s.budget else MovesAlarm(s.budget, s'.budget, at.value, now, s.limit)
  }

  /** A dispatch and a first read ask for the delivery's new date and nothing else; a reply that was not posted, for a minute on. */
  lemma ClockExact(s: Integration, id: string, error: Option<string>, caller: Caller, now: int)
    requires AlarmBudget.Inv(s.budget, now, s.limit) && id in s.deliveries
    ensures var s' := Dispatch(s, id, error, now);
            if s' == s then true else id in s'.deliveries && AsksFor(s, s', s'.deliveries[id].nextAttemptAt, now)
    ensures var s' := ReadCall(s, id, caller, now).0;
            if s' == s then true else id in s'.deliveries && AsksFor(s, s', s'.deliveries[id].nextAttemptAt, now)
    ensures forall message, addr :: id !in s.replies ==>
              AsksFor(s, ChatReply(s, id, addr, message, error, now), if error.None? then None else Some(now + 60_000), now)
  {
    DispatchClock(s, id, error, now);
    ReadClock(s, id, caller, now);
    forall message, addr | id !in s.replies
      ensures AsksFor(s, ChatReply(s, id, addr, message, error, now), if error.None? then None else Some(now + 60_000), now)
    {
      ScheduleExact(s.budget, now + 60_000, now, s.limit);
    }
  }

  lemma DispatchClock(s: Integration, id: string, error: Option<string>, now: int)
    requires AlarmBudget.Inv(s.budget, now, s.limit) && id in s.deliveries
    ensures var s' := Dispatch(s, id, error, now);
            if s' == s then true else id in s'.deliveries && AsksFor(s, s', s'.deliveries[id].nextAttemptAt, now)
  {
    var s' := Dispatch(s, id, error, now);
    if s' != s && s'.deliveries[id].nextAttemptAt.Some? {
      ScheduleExact(s.budget, s'.deliveries[id].nextAttemptAt.value, now, s.limit);
    }
  }

  lemma ReadClock(s: Integration, id: string, caller: Caller, now: int)
    requires AlarmBudget.Inv(s.budget, now, s.limit) && id in s.deliveries
    ensures var s' := ReadCall(s, id, caller, now).0;
            if s' == s then true else id in s'.deliveries && AsksFor(s, s', s'.deliveries[id].nextAttemptAt, now)
  {
    var s' := ReadCall(s, id, caller, now).0;
    if s' != s && s'.deliveries[id].nextAttemptAt.Some? {
      ScheduleExact(s.budget, s'.deliveries[id].nextAttemptAt.value, now, s.limit);
    }
  }

  /** Every instant the connector asks for is covered. */
  ghost predicate WakesCovered(b: AlarmBudget.Budget, wakes: seq<int>, now: int) {
    forall w :: w in wakes ==> IntegrationLaws.Covered(b, w, now)
  }

  lemma {:induction false} WakesExact(b: AlarmBudget.Budget, wakes: seq<int>, now: int, limit: nat)
    requires AlarmBudget.Inv(b, now, limit)
    ensures var b' := ScheduleAll(b, wakes, now, limit);
            && AlarmBudget.Inv(b', now, limit) && WakesCovered(b', wakes, now)
            && (b'.alarm == b.alarm || (b'.alarm.Some? && (b'.alarm.value in wakes || b'.alarm.value == AlarmBudget.HourEnd(now))))
  {
    if wakes != [] {
      var n := |wakes| - 1;
      assert wakes == wakes[..n] + [wakes[n]];
      WakesExact(b, wakes[..n], now, limit);
      IntegrationLaws.ScheduleCovers(ScheduleAll(b, wakes[..n], now, limit), wakes[n], now, limit);
      ScheduleExact(ScheduleAll(b, wakes[..n], now, limit), wakes[n], now, limit);
    }
  }

  /** So a resumed integration, and one whose alarm has run, will wake for each of them, or at the end of the hour. */
  lemma ConnectorWakes(s: Integration, env: AlarmEnv, now: int)
    requires AlarmBudget.Inv(s.budget, now, s.limit)
    ensures WakesCovered(Resume(s, env, now).budget, env.wakes, now)
    ensures s.active && AlarmBudget.Inv(s.budget.(alarm := None), now, s.limit) ==> WakesCovered(Alarm(s, env, now).budget, env.wakes, now)
  {
    IntegrationLaws.DispatchDueImproves(s.(active := true), env.listing.deliveries, env.dispatchErrors, now);
    WakesExact(DispatchDue(s.(active := true), env.listing.deliveries, env.dispatchErrors, now).budget, env.wakes, now, s.limit);
    if s.active && AlarmBudget.Inv(s.budget.(alarm := None), now, s.limit) {
      var fired := s.(budget := s.budget.(alarm := None));
      IntegrationLaws.RetryRepliesKeeps(fired, env.listing.replies, env.replyErrors, now);
      var retried := RetryReplies(fired, env.listing.replies, env.replyErrors, now);
      IntegrationLaws.DispatchDueImproves(retried, env.listing.deliveries, env.dispatchErrors, now);
      var dispatched := DispatchDue(retried, env.listing.deliveries, env.dispatchErrors, now);
      WakesExact(dispatched.budget, env.wakes, now, s.limit);
      NextKeepsWakes(dispatched.(budget := ScheduleAll(dispatched.budget, env.wakes, now, s.limit)), env, now);
    }
  }

  lemma NextKeepsWakes(s: Integration, env: AlarmEnv, now: int)
    requires AlarmBudget.Inv(s.budget, now, s.limit) && WakesCovered(s.budget, env.wakes, now)
    ensures WakesCovered(ScheduleNext(s, env.listing, now).budget, env.wakes, now)
  {
    var next := NextReply(s, NextDelivery(s, env.listing.deliveries), env.listing.replies);
    var at := if s.active && s.healthPing then Earlier(next, now + HEALTH_PING_INTERVAL_MS) else next;
    if at.Some? {
      IntegrationLaws.ScheduleCovers(s.budget, at.value, now, s.limit);
    }
  }

  /** The host's queue is asked to drop exactly the open deliveries of a settled conversation, and those whose reply a retry posts. */
  lemma {:induction false} DrainedExact(
    d: Deliveries, r: map<string, Reply>, ids: seq<string>, conversation: string, errors: map<string, string>, now: int)
    ensures forall id :: id in SettledBy(d, ids, conversation) <==>
              id in ids && id in d && d[id].settledAt.None? && d[id].conversation == conversation
    ensures forall id :: id in PostedBy(d, r, ids, errors, now) <==>
              id in ids && id in d && id in r && ReplyDueFor(r[id], now) && id !in errors
  {
    if ids != [] {
      var n := |ids| - 1;
      DrainedExact(d, r, ids[..n], conversation, errors, now);
      assert forall id :: id in ids <==> id in ids[..n] || id == ids[n];
    }
  }
}
