/** Settlement is final and no wake-up is lost: the laws of an integration's runs. */
module IntegrationLaws {
  import opened Common
  import AlarmBudget
  import opened IntegrationModel

  // ---------------------------------------------------------------- settled and held deliveries are quiet

  /** No status is ever dead; a settled or session-held delivery has no retry time; replies belong to deliveries. */
  ghost predicate Quiet(s: Integration) {
    && (forall id :: id in s.deliveries ==> QuietDelivery(s.deliveries[id]))
    && (forall id :: id in s.replies ==> id in s.deliveries && (s.replies[id].postedAt.Some? ==> s.replies[id].nextAttemptAt.None?))
  }

  predicate QuietDelivery(d: Delivery) {
    !d.status.Dead? && (d.settledAt.Some? || SessionHeld(d) ==> d.nextAttemptAt.None?)
  }

  /** Deliveries stay, and a settled one stays settled. */
  ghost predicate Forward(s: Integration, s': Integration) {
    forall id :: id in s.deliveries ==> id in s'.deliveries && (s.deliveries[id].settledAt.Some? ==> s'.deliveries[id].settledAt.Some?)
  }

  lemma DispatchQuiet(s: Integration, id: string, error: Option<string>, now: int)
    requires Quiet(s)
    ensures Quiet(Dispatch(s, id, error, now)) && Forward(s, Dispatch(s, id, error, now))
    ensures Dispatch(s, id, error, now).replies == s.replies
  {
  }

  lemma {:induction false} DispatchDueQuiet(s: Integration, ids: seq<string>, errors: map<string, string>, now: int)
    requires Quiet(s)
    ensures var s' := DispatchDue(s, ids, errors, now); Quiet(s') && Forward(s, s')
  {
    if ids != [] {
      var n := |ids| - 1;
      DispatchDueQuiet(s, ids[..n], errors, now);
      DispatchQuiet(DispatchDue(s, ids[..n], errors, now), ids[n], ErrorFor(errors, ids[n]), now);
    }
  }

  /** Writing one reply, and with a post its delivery. */
  lemma PostQuiet(s: Integration, id: string, reply: Reply, error: string, now: int)
    requires Quiet(s) && id in s.deliveries && reply.postedAt.None?
    ensures Quiet(Posted(s, id, reply, now)) && Forward(s, Posted(s, id, reply, now))
    ensures Quiet(PostFailed(s, id, reply, error, now)) && Forward(s, PostFailed(s, id, reply, error, now))
    ensures Posted(s, id, reply, now).deliveries.Keys == s.deliveries.Keys
  {
  }

  lemma {:induction false} RetryRepliesQuiet(s: Integration, ids: seq<string>, errors: map<string, string>, now: int)
    requires Quiet(s)
    ensures var s' := RetryReplies(s, ids, errors, now); Quiet(s') && Forward(s, s') && s'.deliveries.Keys == s.deliveries.Keys
  {
    if ids != [] {
      var n := |ids| - 1;
      RetryRepliesQuiet(s, ids[..n], errors, now);
      var s0 := RetryReplies(s, ids[..n], errors, now);
      if ids[n] in s.replies && Retries(s.replies[ids[n]], now) && ids[n] in s0.deliveries {
        PostQuiet(s0, ids[n], s.replies[ids[n]], if ids[n] in errors then errors[ids[n]] else "", now);
      }
    }
  }

  lemma AlarmQuiet(s: Integration, env: AlarmEnv, now: int)
    requires Quiet(s)
    ensures Quiet(Alarm(s, env, now)) && Forward(s, Alarm(s, env, now))
  {
    var fired := s.(budget := s.budget.(alarm := None));
    RetryRepliesQuiet(fired, env.listing.replies, env.replyErrors, now);
    var retried := RetryReplies(fired, env.listing.replies, env.replyErrors, now);
    DispatchDueQuiet(retried, env.listing.deliveries, env.dispatchErrors, now);
  }

  lemma StepQuiet(s: Integration, op: Op)
    requires Quiet(s) && (op.DoIngest? ==> op.id !in s.deliveries)
    ensures Quiet(Apply(s, op)) && Forward(s, Apply(s, op))
  {
    match op
    case DoIngest(event, id, tokenGranted, error, now) => IngestQuiet(s, event, id, tokenGranted, error, now);
    case DoAlarm(env, now) => AlarmQuiet(s, env, now);
    case DoResume(env, now) => DispatchDueQuiet(s.(active := true), env.listing.deliveries, env.dispatchErrors, now);
    case DoReply(id, caller, message, error, now) => ReplyQuiet(s, id, caller, message, error, now);
    case DoSettleConversation(conversation, now) => SettleQuiet(s, conversation, now);
    case DoRead(id, now) => ReadQuiet(s, id, now);
    case DoInjection(id, targetAddr, via, now) => InjectionQuiet(s, id, targetAddr, via, now);
    case DoHandled(id, now) => HandledQuiet(s, id, now);
    case DoRequeue(id, error, now) =>
      if id in s.deliveries {
        QuietNeverDispatched(s, id, map[], error, now);
      }
    case DoWake(_, _) => assert Apply(s, op).deliveries == s.deliveries && Apply(s, op).replies == s.replies;
    case DoPause(_) => assert Apply(s, op).deliveries == s.deliveries && Apply(s, op).replies == s.replies;
  }

  lemma ReadQuiet(s: Integration, id: string, now: int)
    requires Quiet(s)
    ensures Quiet(ReadMessage(s, id, now)) && Forward(s, ReadMessage(s, id, now))
  {
    UpdateQuiet(s, ReadMessage(s, id, now), id);
  }

  lemma InjectionQuiet(s: Integration, id: string, targetAddr: string, via: string, now: int)
    requires Quiet(s)
    ensures Quiet(RecordInjection(s, id, targetAddr, via, now)) && Forward(s, RecordInjection(s, id, targetAddr, via, now))
  {
    UpdateQuiet(s, RecordInjection(s, id, targetAddr, via, now), id);
  }

  lemma HandledQuiet(s: Integration, id: string, now: int)
    requires Quiet(s)
    ensures Quiet(FinishHandled(s, id, now).0) && Forward(s, FinishHandled(s, id, now).0)
  {
    UpdateQuiet(s, FinishHandled(s, id, now).0, id);
  }

  /** Rewriting one delivery that stays quiet and, if settled, settled. */
  lemma UpdateQuiet(s: Integration, s': Integration, id: string)
    requires Quiet(s) && s'.replies == s.replies && s'.deliveries.Keys == s.deliveries.Keys
    requires forall other :: other in s.deliveries && other != id ==> s'.deliveries[other] == s.deliveries[other]
    requires id in s.deliveries ==>
               && QuietDelivery(s'.deliveries[id])
               && (s.deliveries[id].settledAt.Some? ==> s'.deliveries[id].settledAt.Some?)
    ensures Quiet(s') && Forward(s, s')
  {
  }

  lemma IngestQuiet(s: Integration, e: Event, id: string, tokenGranted: bool, error: Option<string>, now: int)
    requires Quiet(s) && id !in s.deliveries
    ensures var s' := Ingest(s, e, id, tokenGranted, error, now).0; Quiet(s') && Forward(s, s')
  {
    if s.active && tokenGranted && e.key !in s.eventKeys {
      var created := s.(eventKeys := s.eventKeys[e.key := id], deliveries := s.deliveries[id := NewDelivery(e)]);
      assert Quiet(created) && Forward(s, created);
      DispatchQuiet(created, id, error, now);
    }
  }

  lemma SettleQuiet(s: Integration, conversation: string, now: int)
    requires Quiet(s)
    ensures Quiet(SettleConversation(s, conversation, now)) && Forward(s, SettleConversation(s, conversation, now))
  {
  }

  lemma ReplyQuiet(s: Integration, id: string, caller: string, message: string, error: Option<string>, now: int)
    requires Quiet(s)
    ensures Quiet(ChatReply(s, id, caller, message, error, now)) && Forward(s, ChatReply(s, id, caller, message, error, now))
  {
    if id !in s.replies && id in s.deliveries {
      var reply := Reply(caller, message, None, Some(now), None);
      var recorded := s.(replies := s.replies[id := reply],
                         deliveries := s.deliveries[id := s.deliveries[id].(status := Replied, nextAttemptAt := None)]);
      assert Quiet(recorded) && Forward(s, recorded);
      PostQuiet(recorded, id, reply, if error.Some? then error.value else "", now);
    }
  }

  /** In every run, pauses included: settled stays settled, and settled or held deliveries carry no retry time. */
  lemma {:induction false} RunQuiet(s: Integration, clock: int, ops: seq<Op>)
    requires Quiet(s) && LegalRun(s, clock, ops)
    ensures Quiet(Run(s, ops)) && Forward(s, Run(s, ops))
    decreases |ops|
  {
    if ops != [] {
      StepQuiet(s, ops[0]);
      RunQuiet(Apply(s, ops[0]), ops[0].now, ops[1..]);
    }
  }

  /** So the due scan never dispatches them, and `requeue`, open to dead deliveries only, never succeeds. */
  lemma QuietNeverDispatched(s: Integration, id: string, errors: map<string, string>, error: Option<string>, now: int)
    requires Quiet(s) && id in s.deliveries
    ensures s.deliveries[id].settledAt.Some? || SessionHeld(s.deliveries[id]) ==> !IsDue(s.deliveries[id], now)
    ensures Requeue(s, id, error, now) == (s, false)
  {
  }

  /** The due scan leaves a delivery that is not due exactly as it was. */
  lemma {:induction false} DueScanLeaves(s: Integration, ids: seq<string>, errors: map<string, string>, now: int, id: string)
    requires id in s.deliveries && !IsDue(s.deliveries[id], now)
    ensures var s' := DispatchDue(s, ids, errors, now); id in s'.deliveries && s'.deliveries[id] == s.deliveries[id]
  {
    if ids != [] {
      DueScanLeaves(s, ids[..|ids| - 1], errors, now, id);
    }
  }

  // ---------------------------------------------------------------- every settlement drains its host's queue

  /** The deliveries an operation calls `cancelHostQueue` for. */
  ghost function Cancels(s: Integration, op: Op): set<string> {
    match op
    case DoHandled(id, now) => if FinishHandled(s, id, now).1 then {} else {id}
    case DoReply(id, _, _, error, _) => if id !in s.replies && id in s.deliveries && error.None? then {id} else {}
    case DoSettleConversation(conversation, _) => set id | id in s.deliveries && Settles(s.deliveries, id, conversation)
    case DoAlarm(env, now) => if s.active then PostedIds(s.deliveries, s.replies, env.listing.replies, env.replyErrors, now) else {}
    case _ => {}
  }

  /** A delivery is settled afterwards if and only if it was, or the queue of its host is being drained of it. */
  ghost predicate Drains(s: Integration, s': Integration, cancelled: set<string>) {
    && s.deliveries.Keys <= s'.deliveries.Keys
    && forall id :: id in s'.deliveries ==>
         (s'.deliveries[id].settledAt.Some? <==> id in cancelled || (id in s.deliveries && s.deliveries[id].settledAt.Some?))
  }

  lemma DrainsThen(s: Integration, s1: Integration, s2: Integration, first: set<string>, second: set<string>)
    requires Drains(s, s1, first) && Drains(s1, s2, second) && first <= s1.deliveries.Keys
    ensures Drains(s, s2, first + second)
  {
  }

  lemma DispatchDrains(s: Integration, id: string, error: Option<string>, now: int)
    ensures Drains(s, Dispatch(s, id, error, now), {})
  {
  }

  lemma {:induction false} DispatchDueDrains(s: Integration, ids: seq<string>, errors: map<string, string>, now: int)
    ensures Drains(s, DispatchDue(s, ids, errors, now), {})
  {
    if ids != [] {
      var n := |ids| - 1;
      DispatchDueDrains(s, ids[..n], errors, now);
      DispatchDrains(DispatchDue(s, ids[..n], errors, now), ids[n], ErrorFor(errors, ids[n]), now);
    }
  }

  lemma RetriedDrains(s: Integration, id: string, reply: Reply, error: Option<string>, now: int)
    ensures var s' := Retried(s, id, reply, error, now);
            Drains(s, s', if Retries(reply, now) && id in s.deliveries && error.None? then {id} else {})
            && s'.deliveries.Keys == s.deliveries.Keys
  {
  }

  ghost function PostedIds(d: Deliveries, r: map<string, Reply>, ids: seq<string>, errors: map<string, string>, now: int): set<string> {
    set id | id in PostedBy(d, r, ids, errors, now)
  }

  lemma {:induction false} RetryRepliesDrains(s: Integration, ids: seq<string>, errors: map<string, string>, now: int)
    ensures var s' := RetryReplies(s, ids, errors, now);
            && Drains(s, s', PostedIds(s.deliveries, s.replies, ids, errors, now)) && s'.deliveries.Keys == s.deliveries.Keys
    ensures PostedIds(s.deliveries, s.replies, ids, errors, now) <= s.deliveries.Keys
  {
    if ids != [] {
      var n := |ids| - 1;
      var last, posted := ids[n], PostedIds(s.deliveries, s.replies, ids[..n], errors, now);
      var s0 := RetryReplies(s, ids[..n], errors, now);
      RetryRepliesDrains(s, ids[..n], errors, now);
      var newly := if PostsReply(s.deliveries, s.replies, last, ErrorFor(errors, last), now) then {last} else {};
      assert PostedIds(s.deliveries, s.replies, ids, errors, now) == posted + newly;
      if last in s.replies {
        RetriedDrains(s0, last, s.replies[last], ErrorFor(errors, last), now);
        DrainsThen(s, s0, RetryReplies(s, ids, errors, now), posted, newly);
      }
    }
  }

  lemma AlarmDrains(s: Integration, env: AlarmEnv, now: int)
    ensures Drains(s, Alarm(s, env, now), Cancels(s, DoAlarm(env, now)))
    ensures Cancels(s, DoAlarm(env, now)) <= s.deliveries.Keys
  {
    var fired := s.(budget := s.budget.(alarm := None));
    RetryRepliesDrains(fired, env.listing.replies, env.replyErrors, now);
    var retried := RetryReplies(fired, env.listing.replies, env.replyErrors, now);
    DispatchDueDrains(retried, env.listing.deliveries, env.dispatchErrors, now);
  }

  lemma ReplyDrains(s: Integration, id: string, caller: string, message: string, error: Option<string>, now: int)
    ensures Drains(s, ChatReply(s, id, caller, message, error, now), Cancels(s, DoReply(id, caller, message, error, now)))
  {
  }

  /** The calls made while a conversation is settled, whatever the listing, are those of `Cancels`. */
  lemma {:induction false} SettledByExact(deliveries: Deliveries, ids: seq<string>, conversation: string)
    ensures forall id :: id in SettledBy(deliveries, ids, conversation) <==> id in ids && Settles(deliveries, id, conversation)
  {
    if ids != [] {
      var n := |ids| - 1;
      assert ids == ids[..n] + [ids[n]];
      SettledByExact(deliveries, ids[..n], conversation);
    }
  }

  lemma IngestDrains(s: Integration, e: Event, id: string, tokenGranted: bool, error: Option<string>, now: int)
    requires id !in s.deliveries
    ensures Drains(s, Ingest(s, e, id, tokenGranted, error, now).0, {})
  {
    var created := s.(eventKeys := s.eventKeys[e.key := id], deliveries := s.deliveries[id := NewDelivery(e)]);
    DispatchDrains(created, id, error, now);
  }

  lemma ConversationDrains(s: Integration, conversation: string, now: int)
    ensures Drains(s, SettleConversation(s, conversation, now), Cancels(s, DoSettleConversation(conversation, now)))
  {
  }

  /** Operations on what is stored under one id. */
  lemma PlainDrains(s: Integration, op: Op)
    requires op.DoRead? || op.DoInjection? || op.DoHandled?
    ensures Drains(s, Apply(s, op), Cancels(s, op)) && Cancels(s, op) <= s.deliveries.Keys
  {
  }

  lemma StepDrains(s: Integration, op: Op)
    requires Quiet(s) && (op.DoIngest? ==> op.id !in s.deliveries)
    ensures Drains(s, Apply(s, op), Cancels(s, op)) && Cancels(s, op) <= s.deliveries.Keys
  {
    match op
    case DoIngest(event, id, tokenGranted, error, now) => IngestDrains(s, event, id, tokenGranted, error, now);
    case DoAlarm(env, now) => AlarmDrains(s, env, now);
    case DoReply(id, caller, message, error, now) => ReplyDrains(s, id, caller, message, error, now);
    case DoResume(env, now) => DispatchDueDrains(s.(active := true), env.listing.deliveries, env.dispatchErrors, now);
    case DoRequeue(id, error, now) =>
      if id in s.deliveries {
        QuietNeverDispatched(s, id, map[], error, now);
      }
    case DoWake(_, _) =>
    case DoPause(_) =>
    case DoSettleConversation(conversation, now) => ConversationDrains(s, conversation, now);
    case _ => PlainDrains(s, op);
  }

  ghost function CancelledOver(s: Integration, ops: seq<Op>): set<string>
    decreases |ops|
  {
    if ops == [] then {} else Cancels(s, ops[0]) + CancelledOver(Apply(s, ops[0]), ops[1..])
  }

  /** Over any run, pauses included, a delivery gets settled if and only if its host's queue is drained of it. */
  lemma {:induction false} RunDrains(s: Integration, clock: int, ops: seq<Op>)
    requires Quiet(s) && LegalRun(s, clock, ops)
    ensures Drains(s, Run(s, ops), CancelledOver(s, ops)) && CancelledOver(s, ops) <= Run(s, ops).deliveries.Keys
    decreases |ops|
  {
    if ops != [] {
      StepQuiet(s, ops[0]);
      StepDrains(s, ops[0]);
      RunDrains(Apply(s, ops[0]), ops[0].now, ops[1..]);
    }
  }

  // ---------------------------------------------------------------- calls, with their refusals

  /** A second answer is never posted: it gets the first one back, whoever asks and however it is refused otherwise. */
  lemma ReplyAnswers(s: Integration, r: ReplyRequest, withinPlan: bool, canReply: bool, error: Option<string>, now: int)
    requires r.caller.Named?
    ensures var (s', result) := ReplyCall(s, r, withinPlan, canReply, error, now);
            && (result.Ok? <==> r.id in s.replies || ReplyRefusal(s, r, withinPlan, canReply).None?)
            && (ReplyRefusal(s, r, withinPlan, canReply).None? <==>
                && withinPlan && canReply && r.id in s.deliveries && s.deliveries[r.id].conversation == r.conversation
                && (s.deliveries[r.id].targetAddr == r.caller.addr || (!s.deliveries[r.id].toAgent && r.caller.member)))
            && (result.Err? || result.value.duplicate ==> s' == s)
            && (result.Ok? ==> r.id in s'.replies && ReplyCall(s', r, withinPlan, canReply, error, now) == (s', Ok(
                  ReplyResult(s'.replies[r.id].postedAt.Some?, true, s'.replies[r.id].message, s'.replies[r.id].postError))))
            && (result.Ok? ==> result.value.message == s'.replies[r.id].message && result.value.posted == s'.replies[r.id].postedAt.Some?)
  {
  }

  // ---------------------------------------------------------------- no wake-up is lost

  /** An alarm is pending no later than the due time or the end of the current clock hour. */
  predicate Covered(b: AlarmBudget.Budget, due: int, now: int) {
    b.alarm.Some? && b.alarm.value <= Max(due, AlarmBudget.HourEnd(now))
  }

  ghost predicate Covers(s: Integration, now: int) {
    && (forall id :: id in s.deliveries && WaitsDelivery(s.deliveries[id]) ==>
          Covered(s.budget, s.deliveries[id].nextAttemptAt.value, now))
    && (forall id :: id in s.replies && WaitsReply(s.replies[id]) ==>
          Covered(s.budget, s.replies[id].nextAttemptAt.value, now))
  }

  ghost predicate NothingWaits(s: Integration) {
    && (forall id :: id in s.deliveries ==> !WaitsDelivery(s.deliveries[id]))
    && (forall id :: id in s.replies ==> !WaitsReply(s.replies[id]))
  }

  /** What scheduling guarantees: the budget stays sound and nothing covered is uncovered. */
  ghost predicate Later(b: AlarmBudget.Budget, b': AlarmBudget.Budget, now: int, limit: nat) {
    && AlarmBudget.Inv(b', now, limit)
    && forall due :: Covered(b, due, now) ==> Covered(b', due, now)
  }

  lemma ScheduleCovers(b: AlarmBudget.Budget, at: int, now: int, limit: nat)
    requires AlarmBudget.Inv(b, now, limit)
    ensures Later(b, ScheduleAt(b, at, now, limit), now, limit)
    ensures Covered(ScheduleAt(b, at, now, limit), at, now)
  {
    AlarmBudget.ArmKeeps(b, now, at, limit);
  }

  lemma {:induction false} ScheduleAllCovers(b: AlarmBudget.Budget, wakes: seq<int>, now: int, limit: nat)
    requires AlarmBudget.Inv(b, now, limit)
    ensures Later(b, ScheduleAll(b, wakes, now, limit), now, limit)
  {
    if wakes != [] {
      ScheduleAllCovers(b, wakes[..|wakes| - 1], now, limit);
      ScheduleCovers(ScheduleAll(b, wakes[..|wakes| - 1], now, limit), wakes[|wakes| - 1], now, limit);
    }
  }

  /** One step of work: the budget only improves, and every due time afterwards is old or covered. */
  ghost predicate Improves(s: Integration, s': Integration, now: int) {
    && s'.limit == s.limit
    && Later(s.budget, s'.budget, now, s.limit)
    && (forall id :: id in s'.deliveries && WaitsDelivery(s'.deliveries[id]) ==>
          Covered(s'.budget, s'.deliveries[id].nextAttemptAt.value, now)
          || (id in s.deliveries && WaitsDelivery(s.deliveries[id]) && s.deliveries[id].nextAttemptAt == s'.deliveries[id].nextAttemptAt))
    && (forall id :: id in s'.replies && WaitsReply(s'.replies[id]) ==>
          Covered(s'.budget, s'.replies[id].nextAttemptAt.value, now)
          || (id in s.replies && WaitsReply(s.replies[id]) && s.replies[id].nextAttemptAt == s'.replies[id].nextAttemptAt))
  }

  lemma ImprovesCovers(s: Integration, s': Integration, now: int)
    requires Improves(s, s', now) && Covers(s, now)
    ensures Covers(s', now)
  {
  }

  lemma DispatchImproves(s: Integration, id: string, error: Option<string>, now: int)
    requires AlarmBudget.Inv(s.budget, now, s.limit)
    ensures Improves(s, Dispatch(s, id, error, now), now)
    ensures Dispatch(s, id, error, now).active == s.active
  {
    var s' := Dispatch(s, id, error, now);
    if s' != s && s'.deliveries[id].nextAttemptAt.Some? {
      ScheduleCovers(s.budget, s'.deliveries[id].nextAttemptAt.value, now, s.limit);
    }
  }

  lemma {:induction false} DispatchDueImproves(s: Integration, ids: seq<string>, errors: map<string, string>, now: int)
    requires AlarmBudget.Inv(s.budget, now, s.limit)
    ensures Improves(s, DispatchDue(s, ids, errors, now), now)
    ensures DispatchDue(s, ids, errors, now).active == s.active
    ensures DispatchDue(s, ids, errors, now).deliveries.Keys == s.deliveries.Keys
    ensures DispatchDue(s, ids, errors, now).replies == s.replies
  {
    if ids != [] {
      var n := |ids| - 1;
      DispatchDueImproves(s, ids[..n], errors, now);
      DispatchImproves(DispatchDue(s, ids[..n], errors, now), ids[n], ErrorFor(errors, ids[n]), now);
    }
  }

  lemma {:induction false} RetryRepliesKeeps(s: Integration, ids: seq<string>, errors: map<string, string>, now: int)
    ensures var s' := RetryReplies(s, ids, errors, now);
            && s'.budget == s.budget && s'.limit == s.limit && s'.active == s.active && s'.healthPing == s.healthPing
            && s'.deliveries.Keys == s.deliveries.Keys && s'.replies.Keys == s.replies.Keys
  {
    if ids != [] {
      RetryRepliesKeeps(s, ids[..|ids| - 1], errors, now);
    }
  }

  lemma {:induction false} NextDeliveryEarliest(s: Integration, ids: seq<string>)
    ensures forall id :: id in ids && id in s.deliveries && WaitsDelivery(s.deliveries[id]) ==>
                           NextDelivery(s, ids).Some? && NextDelivery(s, ids).value <= s.deliveries[id].nextAttemptAt.value
  {
    if ids != [] {
      var n := |ids| - 1;
      assert ids == ids[..n] + [ids[n]];
      NextDeliveryEarliest(s, ids[..n]);
    }
  }

  lemma {:induction false} NextReplyEarliest(s: Integration, next: Option<int>, ids: seq<string>)
    ensures next.Some? ==> NextReply(s, next, ids).Some? && NextReply(s, next, ids).value <= next.value
    ensures forall id :: id in ids && id in s.replies && WaitsReply(s.replies[id]) ==>
                           NextReply(s, next, ids).Some? && NextReply(s, next, ids).value <= s.replies[id].nextAttemptAt.value
  {
    if ids != [] {
      var n := |ids| - 1;
      assert ids == ids[..n] + [ids[n]];
      NextReplyEarliest(s, next, ids[..n]);
    }
  }

  /** The last step of the handler covers everything, whatever the alarm was before. */
  lemma ScheduleNextCovers(s: Integration, l: Listing, now: int)
    requires AlarmBudget.Inv(s.budget, now, s.limit)
    requires forall id :: id in s.deliveries ==> id in l.deliveries
    requires forall id :: id in s.replies ==> id in l.replies
    ensures Covers(ScheduleNext(s, l, now), now)
    ensures AlarmBudget.Inv(ScheduleNext(s, l, now).budget, now, s.limit)
  {
    NextDeliveryEarliest(s, l.deliveries);
    NextReplyEarliest(s, NextDelivery(s, l.deliveries), l.replies);
    var next := NextReply(s, NextDelivery(s, l.deliveries), l.replies);
    var at := if s.active && s.healthPing then Earlier(next, now + HEALTH_PING_INTERVAL_MS) else next;
    if at.Some? {
      ScheduleCovers(s.budget, at.value, now, s.limit);
    }
  }

  lemma AlarmCovers(s: Integration, clock: int, env: AlarmEnv, now: int)
    requires s.active && AlarmBudget.Inv(s.budget, clock, s.limit) && Legal(s, clock, DoAlarm(env, now))
    ensures var s' := Alarm(s, env, now);
            Covers(s', now) && AlarmBudget.Inv(s'.budget, now, s'.limit) && s'.active && s'.limit == s.limit
  {
    AlarmBudget.FireKeeps(s.budget, clock, now, s.limit);
    var fired := s.(budget := s.budget.(alarm := None));
    RetryRepliesKeeps(fired, env.listing.replies, env.replyErrors, now);
    var retried := RetryReplies(fired, env.listing.replies, env.replyErrors, now);
    DispatchDueImproves(retried, env.listing.deliveries, env.dispatchErrors, now);
    var dispatched := DispatchDue(retried, env.listing.deliveries, env.dispatchErrors, now);
    ScheduleAllCovers(dispatched.budget, env.wakes, now, s.limit);
    var woken := dispatched.(budget := ScheduleAll(dispatched.budget, env.wakes, now, s.limit));
    forall id | id in woken.deliveries ensures id in env.listing.deliveries {
      assert id in s.deliveries;
    }
    forall id | id in woken.replies ensures id in env.listing.replies {
      assert id in s.replies;
    }
    ScheduleNextCovers(woken, env.listing, now);
  }

  ghost predicate WellScheduled(s: Integration, clock: int) {
    AlarmBudget.Inv(s.budget, clock, s.limit) && Covers(s, clock)
  }

  lemma TimePasses(s: Integration, clock: int, now: int)
    requires WellScheduled(s, clock) && clock <= now
    ensures WellScheduled(s, now)
  {
    AlarmBudget.ClockAdvances(s.budget, clock, now, s.limit);
    AlarmBudget.HourMonotone(clock, now);
  }

  lemma WorkImproves(s: Integration, op: Op)
    requires AlarmBudget.Inv(s.budget, op.now, s.limit)
    requires Quiet(s) && !op.DoAlarm? && !op.DoResume?
    ensures Improves(s, Apply(s, op), op.now)
  {
    match op
    case DoIngest(event, id, tokenGranted, error, now) => IngestImproves(s, event, id, tokenGranted, error, now);
    case DoRead(id, now) => ReadImproves(s, id, now);
    case DoReply(id, caller, message, error, now) => ReplyImproves(s, id, caller, message, error, now);
    case DoWake(at, now) => ScheduleCovers(s.budget, at, now, s.limit);
    case DoInjection(id, targetAddr, via, now) => InjectionImproves(s, id, targetAddr, via, now);
    case DoHandled(id, now) => HandledImproves(s, id, now);
    case DoSettleConversation(conversation, now) => SettleImproves(s, conversation, now);
    case DoRequeue(id, error, now) =>
      if id in s.deliveries {
        QuietNeverDispatched(s, id, map[], error, now);
      }
    case DoPause(now) => SettlingImproves(s, Pause(s), now);
  }

  lemma InjectionImproves(s: Integration, id: string, targetAddr: string, via: string, now: int)
    requires AlarmBudget.Inv(s.budget, now, s.limit)
    ensures Improves(s, RecordInjection(s, id, targetAddr, via, now), now)
  {
    SettlingImproves(s, RecordInjection(s, id, targetAddr, via, now), now);
  }

  lemma HandledImproves(s: Integration, id: string, now: int)
    requires AlarmBudget.Inv(s.budget, now, s.limit)
    ensures Improves(s, FinishHandled(s, id, now).0, now)
  {
    SettlingImproves(s, FinishHandled(s, id, now).0, now);
  }

  lemma SettleImproves(s: Integration, conversation: string, now: int)
    requires AlarmBudget.Inv(s.budget, now, s.limit)
    ensures Improves(s, SettleConversation(s, conversation, now), now)
  {
    SettlingImproves(s, SettleConversation(s, conversation, now), now);
  }

  /** A step that only clears due times owes nothing new. */
  lemma SettlingImproves(s: Integration, s': Integration, now: int)
    requires AlarmBudget.Inv(s.budget, now, s.limit) && s'.budget == s.budget && s'.limit == s.limit && s'.replies == s.replies
    requires forall id :: id in s'.deliveries ==>
               id in s.deliveries
               && (WaitsDelivery(s'.deliveries[id]) ==>
                     WaitsDelivery(s.deliveries[id]) && s.deliveries[id].nextAttemptAt == s'.deliveries[id].nextAttemptAt)
    ensures Improves(s, s', now)
  {
  }

  /** Storing what waits for nothing leaves nothing to cover. */
  lemma CreatedImproves(s: Integration, created: Integration, s': Integration, now: int)
    requires Improves(created, s', now)
    requires created.budget == s.budget && created.limit == s.limit && created.replies == s.replies
    requires forall id :: id in created.deliveries && WaitsDelivery(created.deliveries[id]) ==>
               id in s.deliveries && s.deliveries[id] == created.deliveries[id]
    ensures Improves(s, s', now)
  {
  }

  lemma IngestImproves(s: Integration, e: Event, id: string, tokenGranted: bool, error: Option<string>, now: int)
    requires AlarmBudget.Inv(s.budget, now, s.limit)
    ensures Improves(s, Ingest(s, e, id, tokenGranted, error, now).0, now)
  {
    if s.active && tokenGranted && e.key !in s.eventKeys {
      var created := s.(eventKeys := s.eventKeys[e.key := id], deliveries := s.deliveries[id := NewDelivery(e)]);
      DispatchImproves(created, id, error, now);
      CreatedImproves(s, created, Dispatch(created, id, error, now), now);
    } else {
      assert Ingest(s, e, id, tokenGranted, error, now).0 == s;
    }
  }

  lemma ReadImproves(s: Integration, id: string, now: int)
    requires AlarmBudget.Inv(s.budget, now, s.limit)
    ensures Improves(s, ReadMessage(s, id, now), now)
  {
    var s' := ReadMessage(s, id, now);
    if s' != s && s'.deliveries[id].nextAttemptAt.Some? {
      ScheduleCovers(s.budget, s'.deliveries[id].nextAttemptAt.value, now, s.limit);
    }
  }

  /** Writing a delivery and a reply: what then waits was waiting before or is covered. */
  lemma UpdateImproves(s: Integration, s': Integration, id: string, now: int)
    requires s'.limit == s.limit && Later(s.budget, s'.budget, now, s.limit)
    requires forall other :: other != id && other in s'.deliveries ==> other in s.deliveries && s'.deliveries[other] == s.deliveries[other]
    requires forall other :: other != id && other in s'.replies ==> other in s.replies && s'.replies[other] == s.replies[other]
    requires id in s'.deliveries && WaitsDelivery(s'.deliveries[id]) ==> Covered(s'.budget, s'.deliveries[id].nextAttemptAt.value, now)
    requires id in s'.replies && WaitsReply(s'.replies[id]) ==> Covered(s'.budget, s'.replies[id].nextAttemptAt.value, now)
    ensures Improves(s, s', now)
  {
  }

  lemma ReplyBudget(s: Integration, id: string, caller: string, message: string, error: Option<string>, now: int)
    ensures ChatReply(s, id, caller, message, error, now).budget in {s.budget, ScheduleAt(s.budget, now + REPLY_RETRY_MS, now, s.limit)}
    ensures ChatReply(s, id, caller, message, error, now).limit == s.limit
    ensures error.None? ==> ChatReply(s, id, caller, message, error, now).budget == s.budget
  {
  }

  lemma ReplyUpdates(s: Integration, id: string, caller: string, message: string, error: Option<string>, now: int)
    requires id !in s.replies && id in s.deliveries
    ensures var s' := ChatReply(s, id, caller, message, error, now);
            && (forall other :: other != id && other in s'.deliveries ==> other in s.deliveries && s'.deliveries[other] == s.deliveries[other])
            && (forall other :: other != id && other in s'.replies ==> other in s.replies && s'.replies[other] == s.replies[other])
            && id in s'.deliveries && !WaitsDelivery(s'.deliveries[id]) && id in s'.replies
            && (WaitsReply(s'.replies[id]) ==> s'.replies[id].nextAttemptAt == Some(now + REPLY_RETRY_MS)
                                               && s'.budget == ScheduleAt(s.budget, now + REPLY_RETRY_MS, now, s.limit))
  {
  }

  lemma ReplyImproves(s: Integration, id: string, caller: string, message: string, error: Option<string>, now: int)
    requires AlarmBudget.Inv(s.budget, now, s.limit)
    ensures Improves(s, ChatReply(s, id, caller, message, error, now), now)
  {
    ScheduleCovers(s.budget, now + REPLY_RETRY_MS, now, s.limit);
    ReplyBudget(s, id, caller, message, error, now);
    if id !in s.replies && id in s.deliveries {
      ReplyUpdates(s, id, caller, message, error, now);
      UpdateImproves(s, ChatReply(s, id, caller, message, error, now), id, now);
    }
  }

  /** While the integration stays active, every step keeps everything due covered. */
  lemma StepCovers(s: Integration, clock: int, op: Op)
    requires Quiet(s) && WellScheduled(s, clock) && Legal(s, clock, op)
    requires s.active && !op.DoPause? && !op.DoResume?
    ensures WellScheduled(Apply(s, op), op.now) && Apply(s, op).active
  {
    TimePasses(s, clock, op.now);
    match op
    case DoAlarm(env, now) => AlarmCovers(s, clock, env, now);
    case _ =>
      WorkImproves(s, op);
      ImprovesCovers(s, Apply(s, op), op.now);
  }

  ghost predicate StaysActive(ops: seq<Op>) {
    forall i :: 0 <= i < |ops| ==> !ops[i].DoPause? && !ops[i].DoResume?
  }

  /**
   While an integration stays active no wake-up is lost: after every operation each
   unsettled delivery and unposted reply with a due time has an alarm pending no
   later than that time or the end of the current clock hour, budget left or not.
   */
  lemma {:induction false} RunCovers(s: Integration, clock: int, ops: seq<Op>)
    requires Quiet(s) && WellScheduled(s, clock) && s.active && LegalRun(s, clock, ops) && StaysActive(ops)
    ensures WellScheduled(Run(s, ops), LastTime(clock, ops))
    decreases |ops|
  {
    if ops != [] {
      StepQuiet(s, ops[0]);
      StepCovers(s, clock, ops[0]);
      RunCovers(Apply(s, ops[0]), ops[0].now, ops[1..]);
    }
  }

  /** A freshly configured integration starts out so. */
  lemma ConfiguredRunCovers(healthPing: bool, limit: nat, clock: int, ops: seq<Op>)
    requires var s := Integration(true, healthPing, limit, map[], map[], map[], AlarmBudget.FRESH);
             LegalRun(s, clock, ops) && StaysActive(ops)
    ensures var s := Integration(true, healthPing, limit, map[], map[], map[], AlarmBudget.FRESH);
            Covers(Run(s, ops), LastTime(clock, ops)) && Quiet(Run(s, ops))
  {
    var s := Integration(true, healthPing, limit, map[], map[], map[], AlarmBudget.FRESH);
    RunCovers(s, clock, ops);
    RunQuiet(s, clock, ops);
  }

  // ---------------------------------------------------------------- pausing

  /** Pausing, and everything else done while paused, keeps the cover, until the handler runs. */
  lemma PausedStepCovers(s: Integration, clock: int, op: Op)
    requires Quiet(s) && WellScheduled(s, clock) && Legal(s, clock, op) && !op.DoAlarm?
    ensures WellScheduled(Apply(s, op), op.now)
  {
    TimePasses(s, clock, op.now);
    if op.DoResume? {
      ResumeImproves(s, op.env, op.now);
      ImprovesCovers(s, Apply(s, op), op.now);
    } else {
      WorkImproves(s, op);
      ImprovesCovers(s, Apply(s, op), op.now);
    }
  }

  lemma ResumeImproves(s: Integration, env: AlarmEnv, now: int)
    requires AlarmBudget.Inv(s.budget, now, s.limit)
    ensures Improves(s, Resume(s, env, now), now)
  {
    var resumed := DispatchDue(s.(active := true), env.listing.deliveries, env.dispatchErrors, now);
    DispatchDueImproves(s.(active := true), env.listing.deliveries, env.dispatchErrors, now);
    ScheduleAllCovers(resumed.budget, env.wakes, now, s.limit);
  }

  /** The handler of a paused integration returns at once: the cover survives exactly when nothing was waiting. */
  lemma PausedAlarmExact(s: Integration, env: AlarmEnv, now: int)
    requires !s.active
    ensures Covers(Alarm(s, env, now), now) <==> NothingWaits(s)
  {
  }

  /**
   And resuming does not make up for it: unless something is due by then or the
   connector asks for a wake-up, no alarm is set, whatever still waits.
   */
  lemma ResumeDoesNotRearm(s: Integration, env: AlarmEnv, now: int, env': AlarmEnv, later: int)
    requires !s.active && env'.wakes == []
    requires forall id :: id in s.deliveries ==> !IsDue(s.deliveries[id], later)
    ensures var s' := Resume(Alarm(s, env, now), env', later);
            && s'.active && s'.budget.alarm.None?
            && s'.deliveries == s.deliveries && s'.replies == s.replies
            && (Covers(s', later) <==> NothingWaits(s))
  {
    var fired := Alarm(s, env, now).(active := true);
    NothingDue(fired, env'.listing.deliveries, env'.dispatchErrors, later);
  }

  // Two deliveries, of which the one due first is handled before the integration is paused.

  function Due(targetAddr: string, conversation: string, at: int): Delivery {
    Delivery(conversation, targetAddr, true, Dispatched, 1, Some(at), Some(at + BASE_REDELIVERY_MS), None, None, None, 0, None, None)
  }

  function FirstEvent(): Event {
    Event("first", "one", "clem@box", true)
  }

  function SecondEvent(): Event {
    Event("second", "two", "clem@box", true)
  }

  const STORED: AlarmEnv := AlarmEnv(Listing(["a", "b"], []), map[], map[], [])

  function Configured(limit: nat): Integration {
    Integration(true, false, limit, map[], map[], map[], AlarmBudget.FRESH)
  }

  function PausedOverAnAlarm(): seq<Op> {
    [DoIngest(FirstEvent(), "a", true, None, 0)] + ([DoIngest(SecondEvent(), "b", true, None, 100_000)] +
    ([DoHandled("a", 150_000)] + ([DoPause(200_000)] + ([DoAlarm(STORED, 300_000)] + ([DoResume(STORED, 310_000)] + [])))))
  }

  lemma FirstThenRest(s: Integration, clock: int, op: Op, rest: seq<Op>)
    requires Legal(s, clock, op) && LegalRun(Apply(s, op), op.now, rest)
    ensures LegalRun(s, clock, [op] + rest) && Run(s, [op] + rest) == Run(Apply(s, op), rest)
  {
    assert ([op] + rest)[0] == op && ([op] + rest)[1..] == rest;
  }

  lemma FirstIngested(limit: nat)
    requires limit >= 1
    ensures var s := Apply(Configured(limit), DoIngest(FirstEvent(), "a", true, None, 0));
            && s.deliveries == map["a" := Due("clem@box", "one", 0)] && s.replies == map[] && s.eventKeys == map["first" := "a"]
            && s.active && !s.healthPing && s.limit == limit && s.budget.alarm == Some(300_000)
  {
    RedeliveryDelayShape(Due("clem@box", "one", 0));
  }

  lemma SecondIngested(s: Integration)
    requires s.active && s.deliveries == map["a" := Due("clem@box", "one", 0)] && s.eventKeys == map["first" := "a"]
    requires s.budget.alarm == Some(300_000)
    ensures Apply(s, DoIngest(SecondEvent(), "b", true, None, 100_000)) ==
            s.(deliveries := map["a" := Due("clem@box", "one", 0), "b" := Due("clem@box", "two", 100_000)],
               eventKeys := map["first" := "a", "second" := "b"])
  {
    RedeliveryDelayShape(Due("clem@box", "two", 100_000));
    assert "first" != "second" by {
      assert |"first"| == 5 && |"second"| == 6;
    }
  }

  lemma HandledPausedFired(s: Integration)
    requires s.active && s.replies == map[] && s.budget.alarm == Some(300_000)
    requires s.deliveries == map["a" := Due("clem@box", "one", 0), "b" := Due("clem@box", "two", 100_000)]
    ensures var s3 := Apply(s, DoHandled("a", 150_000));
            var s4 := Apply(s3, DoPause(200_000));
            && s4.deliveries.Keys == {"a", "b"} && s4.replies == map[] && !s4.active && s4.budget == s.budget
            && s4.deliveries["a"].settledAt.Some? && s4.deliveries["b"] == Due("clem@box", "two", 100_000)
            && IsListing(s4, STORED.listing)
            && Apply(s4, DoAlarm(STORED, 300_000)) == s4.(budget := s4.budget.(alarm := None))
  {
  }

  /**
   It does happen: the alarm was set for a delivery that has since been handled, it
   fires while the integration is paused, and after the integration is resumed the
   other delivery's retry has no alarm.
   */
  lemma PausedOverAnAlarmStrands(limit: nat)
    requires limit >= 1
    ensures LegalRun(Configured(limit), 0, PausedOverAnAlarm())
    ensures var s := Run(Configured(limit), PausedOverAnAlarm());
            && s.active && s.budget.alarm.None?
            && "b" in s.deliveries && s.deliveries["b"].settledAt.None? && s.deliveries["b"].nextAttemptAt == Some(400_000)
            && !Covers(s, 310_000)
  {
    var s0 := Configured(limit);
    FirstIngested(limit);
    var s1 := Apply(s0, DoIngest(FirstEvent(), "a", true, None, 0));
    SecondIngested(s1);
    var s2 := Apply(s1, DoIngest(SecondEvent(), "b", true, None, 100_000));
    HandledPausedFired(s2);
    var s3 := Apply(s2, DoHandled("a", 150_000));
    var s4 := Apply(s3, DoPause(200_000));
    var s5 := Apply(s4, DoAlarm(STORED, 300_000));
    ResumeDoesNotRearm(s4, STORED, 300_000, STORED, 310_000);
    assert IsListing(s5, STORED.listing);
    assert WaitsDelivery(s4.deliveries["b"]);
    FirstThenRest(s5, 300_000, DoResume(STORED, 310_000), []);
    FirstThenRest(s4, 200_000, DoAlarm(STORED, 300_000), [DoResume(STORED, 310_000)] + []);
    FirstThenRest(s3, 150_000, DoPause(200_000), [DoAlarm(STORED, 300_000)] + ([DoResume(STORED, 310_000)] + []));
    FirstThenRest(s2, 100_000, DoHandled("a", 150_000),
                  [DoPause(200_000)] + ([DoAlarm(STORED, 300_000)] + ([DoResume(STORED, 310_000)] + [])));
    FirstThenRest(s1, 0, DoIngest(SecondEvent(), "b", true, None, 100_000),
                  [DoHandled("a", 150_000)] + ([DoPause(200_000)] + ([DoAlarm(STORED, 300_000)] + ([DoResume(STORED, 310_000)] + []))));
    FirstThenRest(s0, 0, DoIngest(FirstEvent(), "a", true, None, 0),
                  [DoIngest(SecondEvent(), "b", true, None, 100_000)] + ([DoHandled("a", 150_000)] + ([DoPause(200_000)] +
                  ([DoAlarm(STORED, 300_000)] + ([DoResume(STORED, 310_000)] + [])))));
  }

  lemma {:induction false} NothingDue(s: Integration, ids: seq<string>, errors: map<string, string>, now: int)
    requires forall id :: id in s.deliveries ==> !IsDue(s.deliveries[id], now)
    ensures DispatchDue(s, ids, errors, now) == s
  {
    if ids != [] {
      NothingDue(s, ids[..|ids| - 1], errors, now);
    }
  }

  // ---------------------------------------------------------------- redelivery times

  /** Redelivery backs off from 5 minutes, from 20 once read, doubles, and stays within 30. */
  lemma RedeliveryDelayShape(d: Delivery)
    ensures 300_000 <= RedeliveryDelay(d) <= 1_800_000
    ensures d.attempts <= 1 ==> RedeliveryDelay(d) == if d.readAt.Some? then 1_200_000 else 300_000
    ensures d.attempts >= 1 ==> RedeliveryDelay(d.(attempts := d.attempts + 1)) == Min(2 * RedeliveryDelay(d), 1_800_000)
    ensures RedeliveryDelay(d) <= RedeliveryDelay(d.(attempts := d.attempts + 1))
    ensures d.readAt.None? ==> RedeliveryDelay(d) <= RedeliveryDelay(d.(readAt := Some(0)))
  {
    PowPositive(if d.attempts <= 1 then 0 else d.attempts - 1);
  }

  lemma {:induction false} PowPositive(n: nat)
    ensures Pow2(n) >= 1
  {
    if n > 0 {
      PowPositive(n - 1);
    }
  }

  // ---------------------------------------------------------------- one delivery an event, one reply a delivery

  /** How many deliveries a run creates for one event key. */
  ghost function Queuings(s: Integration, ops: seq<Op>, key: string): nat
    decreases |ops|
  {
    if ops == [] then 0
    else
      var op := ops[0];
      (if op.DoIngest? && op.event.key == key && Ingest(s, op.event, op.id, op.tokenGranted, op.error, op.now).1.Queued? then 1 else 0)
      + Queuings(Apply(s, op), ops[1..], key)
  }

  lemma {:induction false} DispatchDueEvents(s: Integration, ids: seq<string>, errors: map<string, string>, now: int)
    ensures DispatchDue(s, ids, errors, now).eventKeys == s.eventKeys && DispatchDue(s, ids, errors, now).replies == s.replies
  {
    if ids != [] {
      DispatchDueEvents(s, ids[..|ids| - 1], errors, now);
    }
  }

  lemma {:induction false} RetryRepliesEvents(s: Integration, ids: seq<string>, errors: map<string, string>, now: int)
    ensures RetryReplies(s, ids, errors, now).eventKeys == s.eventKeys
  {
    if ids != [] {
      RetryRepliesEvents(s, ids[..|ids| - 1], errors, now);
    }
  }

  /** Only an ingest adds an event key, and nothing changes one. */
  lemma EventKeysStay(s: Integration, op: Op)
    ensures Apply(s, op).eventKeys ==
            if op.DoIngest? && Ingest(s, op.event, op.id, op.tokenGranted, op.error, op.now).1.Queued?
            then s.eventKeys[op.event.key := op.id] else s.eventKeys
  {
    match op
    case DoAlarm(env, now) =>
      var fired := s.(budget := s.budget.(alarm := None));
      RetryRepliesEvents(fired, env.listing.replies, env.replyErrors, now);
      DispatchDueEvents(RetryReplies(fired, env.listing.replies, env.replyErrors, now), env.listing.deliveries, env.dispatchErrors, now);
    case DoResume(env, now) =>
      DispatchDueEvents(s.(active := true), env.listing.deliveries, env.dispatchErrors, now);
    case _ =>
  }

  /** Over any run an event key gets at most one delivery, and every repetition is answered with that one. */
  lemma {:induction false} OneDeliveryPerEvent(s: Integration, ops: seq<Op>, key: string)
    ensures Queuings(s, ops, key) <= if key in s.eventKeys then 0 else 1
    ensures key in s.eventKeys ==> key in Run(s, ops).eventKeys && Run(s, ops).eventKeys[key] == s.eventKeys[key]
    decreases |ops|
  {
    if ops != [] {
      EventKeysStay(s, ops[0]);
      OneDeliveryPerEvent(Apply(s, ops[0]), ops[1..], key);
    }
  }

  /** A recorded reply keeps its author and text, and once posted it is never touched again. */
  ghost predicate RepliesKept(s: Integration, s': Integration) {
    forall id :: id in s.replies ==>
      && id in s'.replies
      && s'.replies[id].caller == s.replies[id].caller && s'.replies[id].message == s.replies[id].message
      && (s.replies[id].postedAt.Some? ==> s'.replies[id] == s.replies[id])
  }

  lemma RetriedKept(s: Integration, s0: Integration, id: string, error: Option<string>, now: int)
    requires RepliesKept(s, s0) && id in s.replies
    ensures RepliesKept(s, Retried(s0, id, s.replies[id], error, now))
  {
  }

  lemma {:induction false} RetryRepliesKept(s: Integration, ids: seq<string>, errors: map<string, string>, now: int)
    ensures RepliesKept(s, RetryReplies(s, ids, errors, now))
  {
    if ids != [] {
      var n := |ids| - 1;
      RetryRepliesKept(s, ids[..n], errors, now);
      if ids[n] in s.replies {
        RetriedKept(s, RetryReplies(s, ids[..n], errors, now), ids[n], ErrorFor(errors, ids[n]), now);
      }
    }
  }

  lemma ReplyKept(s: Integration, id: string, caller: string, message: string, error: Option<string>, now: int)
    ensures RepliesKept(s, ChatReply(s, id, caller, message, error, now))
  {
  }

  lemma StepRepliesKept(s: Integration, op: Op)
    ensures RepliesKept(s, Apply(s, op))
  {
    match op
    case DoAlarm(env, now) =>
      var fired := s.(budget := s.budget.(alarm := None));
      RetryRepliesKept(fired, env.listing.replies, env.replyErrors, now);
      DispatchDueEvents(RetryReplies(fired, env.listing.replies, env.replyErrors, now), env.listing.deliveries, env.dispatchErrors, now);
    case DoResume(env, now) =>
      DispatchDueEvents(s.(active := true), env.listing.deliveries, env.dispatchErrors, now);
    case DoReply(id, caller, message, error, now) => ReplyKept(s, id, caller, message, error, now);
    case _ =>
  }

  /** Over any run a delivery has one reply, the first recorded, and it is posted at most once. */
  lemma {:induction false} FirstReplyStands(s: Integration, ops: seq<Op>)
    ensures RepliesKept(s, Run(s, ops))
    decreases |ops|
  {
    if ops != [] {
      StepRepliesKept(s, ops[0]);
      FirstReplyStands(Apply(s, ops[0]), ops[1..]);
    }
  }
}
