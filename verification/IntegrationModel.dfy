/**
 Delivery, settlement and redelivery of one integration (src/do/integration.ts).
 Every operation is one atomic step; what the connector, the target hub and the
 clock answer are parameters.
 */
module IntegrationModel {
  import opened Common
  import AlarmBudget

  const BASE_REDELIVERY_MS: int := 5 * 60 * 1_000
  const MAX_REDELIVERY_MS: int := 30 * 60 * 1_000
  const READ_REDELIVERY_MULTIPLIER: int := 4
  const REPLY_RETRY_MS: int := 60_000
  const HEALTH_PING_INTERVAL_MS: int := 60_000

  datatype Status = Pending | Dispatched | Read | Replied | Handled | Dead

  datatype Delivery = Delivery(
    conversation: string,
    targetAddr: string,
    toAgent: bool,                 // the target address is an agent, not a room
    status: Status,
    attempts: nat,
    lastDispatchAt: Option<int>,
    nextAttemptAt: Option<int>,
    readAt: Option<int>,
    injectedVia: Option<string>,
    injectedAt: Option<int>,
    injections: nat,
    settledAt: Option<int>,
    lastError: Option<string>)

  datatype Reply = Reply(
    caller: string,
    message: string,
    postedAt: Option<int>,
    nextAttemptAt: Option<int>,
    postError: Option<string>)

  type Deliveries = map<string, Delivery>

  datatype Integration = Integration(
    active: bool,
    healthPing: bool,
    limit: nat,                    // the hourly alarm budget of its connector
    deliveries: Deliveries,
    replies: map<string, Reply>,
    eventKeys: map<string, string>,
    budget: AlarmBudget.Budget)

  // ---------------------------------------------------------------- scheduling

  /** Only an earlier instant than the pending alarm is asked for. */
  function ScheduleAt(b: AlarmBudget.Budget, at: int, now: int, limit: nat): AlarmBudget.Budget {
    if b.alarm.Some? && b.alarm.value <= at then b else AlarmBudget.Arm(b, now, at, limit).0
  }

  function ScheduleSome(b: AlarmBudget.Budget, at: Option<int>, now: int, limit: nat): AlarmBudget.Budget {
    if at.Some? then ScheduleAt(b, at.value, now, limit) else b
  }

  function ScheduleAll(b: AlarmBudget.Budget, wakes: seq<int>, now: int, limit: nat): AlarmBudget.Budget {
    if wakes == [] then b
    else ScheduleAt(ScheduleAll(b, wakes[..|wakes| - 1], now, limit), wakes[|wakes| - 1], now, limit)
  }

  function RedeliveryDelay(d: Delivery): int {
    Min(BASE_REDELIVERY_MS * (if d.readAt.Some? then READ_REDELIVERY_MULTIPLIER else 1)
          * Pow2(if d.attempts <= 1 then 0 else d.attempts - 1),
        MAX_REDELIVERY_MS)
  }

  /** A native adapter has the envelope durably in its agent's session. */
  predicate SessionHeld(d: Delivery) {
    d.injectedVia == Some("adapter") && d.toAgent
  }

  function ArmRedelivery(d: Delivery, now: int): Delivery {
    d.(nextAttemptAt := if SessionHeld(d) then None else Some(now + RedeliveryDelay(d)))
  }

  // ---------------------------------------------------------------- operations

  function Sent(d: Delivery, error: Option<string>, now: int): Delivery {
    if error.Some? then d.(lastError := error)
    else d.(attempts := d.attempts + 1, status := if d.readAt.Some? then Read else Dispatched,
            lastDispatchAt := Some(now), lastError := None)
  }

  /** `dispatchDelivery`; `error` is what queueing at the target came to, `no_route` included. */
  function Dispatch(s: Integration, id: string, error: Option<string>, now: int): Integration {
    if !s.active || id !in s.deliveries || s.deliveries[id].settledAt.Some? || s.deliveries[id].status.Dead? then s
    else DispatchEnd(s, id, s.deliveries[id], error, now)
  }

  /** The part of a dispatch after the target has answered: it writes back the copy it read before. */
  function DispatchEnd(s: Integration, id: string, copy: Delivery, error: Option<string>, now: int): Integration {
    var d := ArmRedelivery(Sent(copy, error, now), now);
    s.(deliveries := s.deliveries[id := d], budget := ScheduleSome(s.budget, d.nextAttemptAt, now, s.limit))
  }

  datatype IngestResult = Paused | RateLimited | Duplicate(id: string) | Queued(id: string)

  datatype Event = Event(key: string, conversation: string, targetAddr: string, toAgent: bool)

  function NewDelivery(e: Event): Delivery {
    Delivery(e.conversation, e.targetAddr, e.toAgent, Pending, 0, None, None, None, None, None, 0, None, None)
  }

  function Ingest(
    s: Integration, e: Event, id: string, tokenGranted: bool, error: Option<string>, now: int): (Integration, IngestResult)
  {
    if !s.active then (s, Paused)
    else if !tokenGranted then (s, RateLimited)
    else if e.key in s.eventKeys then (s, Duplicate(s.eventKeys[e.key]))
    else
      var s' := s.(eventKeys := s.eventKeys[e.key := id], deliveries := s.deliveries[id := NewDelivery(e)]);
      (Dispatch(s', id, error, now), Queued(id))
  }

  function ReadMessage(s: Integration, id: string, now: int): Integration {
    if id !in s.deliveries then s else ReadEnd(s, id, s.deliveries[id], now)
  }

  /** The part of a read after the caller is known to be the owner: it writes back the copy it read before. */
  function ReadEnd(s: Integration, id: string, copy: Delivery, now: int): Integration {
    if copy.readAt.Some? || copy.settledAt.Some? then s
    else
      var d := ArmRedelivery(copy.(readAt := Some(now), status := Read), now);
      s.(deliveries := s.deliveries[id := d], budget := ScheduleSome(s.budget, d.nextAttemptAt, now, s.limit))
  }

  /** The connector posted the reply: it and its delivery are done. */
  function Posted(s: Integration, id: string, reply: Reply, now: int): Integration
    requires id in s.deliveries
  {
    PostEnd(s, id, s.deliveries[id], reply, now)
  }

  /** A post writes back the copies of the reply and of the delivery it was started with. */
  function PostEnd(s: Integration, id: string, copy: Delivery, reply: Reply, now: int): Integration {
    s.(replies := s.replies[id := reply.(postedAt := Some(now), postError := None, nextAttemptAt := None)],
       deliveries := s.deliveries[id := HandledAt(copy, now)])
  }

  function PostFailed(s: Integration, id: string, reply: Reply, error: string, now: int): Integration {
    s.(replies := s.replies[id := reply.(postError := Some(error), nextAttemptAt := Some(now + REPLY_RETRY_MS))])
  }

  /** `chatReply` by the owner of the delivery, on a connector that can reply. */
  function ChatReply(s: Integration, id: string, caller: string, message: string, error: Option<string>, now: int): Integration {
    if id in s.replies || id !in s.deliveries then s
    else
      var reply := NewReply(caller, message, now);
      var recorded := ReplyRecorded(s, id, s.deliveries[id], reply);
      if error.None? then Posted(recorded, id, reply, now)
      else ReplyFailed(recorded, id, reply, error.value, now)
  }

  function NewReply(caller: string, message: string, now: int): Reply {
    Reply(caller, message, None, Some(now), None)
  }

  function RepliedTo(d: Delivery): Delivery {
    d.(status := Replied, nextAttemptAt := None)
  }

  /** The reply is stored, with the copy of its delivery read when the call came. */
  function ReplyRecorded(s: Integration, id: string, copy: Delivery, reply: Reply): Integration {
    s.(replies := s.replies[id := reply], deliveries := s.deliveries[id := RepliedTo(copy)])
  }

  /** Its first post failed, and the next is put on the clock. */
  function ReplyFailed(s: Integration, id: string, reply: Reply, error: string, now: int): Integration {
    var failed := PostFailed(s, id, reply, error, now);
    failed.(budget := ScheduleAt(failed.budget, now + REPLY_RETRY_MS, now, s.limit))
  }

  function RecordInjection(s: Integration, id: string, targetAddr: string, via: string, now: int): Integration {
    if id !in s.deliveries || s.deliveries[id].targetAddr != targetAddr
       || s.deliveries[id].settledAt.Some? || s.deliveries[id].status.Dead? then s
    else
      var d := s.deliveries[id].(injections := s.deliveries[id].injections + 1, injectedVia := Some(via), injectedAt := Some(now));
      s.(deliveries := s.deliveries[id := if SessionHeld(d) then d.(nextAttemptAt := None) else d])
  }

  function HandledAt(d: Delivery, now: int): Delivery {
    d.(status := Handled, settledAt := Some(now), nextAttemptAt := None)
  }

  function FinishHandled(s: Integration, id: string, now: int): (Integration, bool) {
    if id !in s.deliveries then (s, true) else HandledEnd(s, id, s.deliveries[id], now)
  }

  /** The part of it after the caller is known to be the owner; a conversation is settled in the same way, from its listing. */
  function HandledEnd(s: Integration, id: string, copy: Delivery, now: int): (Integration, bool) {
    if copy.settledAt.Some? then (s, true) else (s.(deliveries := s.deliveries[id := HandledAt(copy, now)]), false)
  }

  function SettledIn(d: Delivery, conversation: string, now: int): Delivery {
    if d.settledAt.None? && d.conversation == conversation then HandledAt(d, now) else d
  }

  function SettleConversation(s: Integration, conversation: string, now: int): Integration {
    s.(deliveries := map id | id in s.deliveries :: SettledIn(s.deliveries[id], conversation, now))
  }

  // ---------------------------------------------------------------- calls, with their refusals

  datatype CallError = UnknownDelivery | NotOwner | PlanLimit | ConversationMismatch | OneWay

  /** `member` is what the target room answers; an agent target asks nobody. */
  datatype Caller = Operator | Named(addr: string, member: bool)

  predicate Owns(d: Delivery, caller: Caller) {
    caller.Operator? || d.targetAddr == caller.addr || (!d.toAgent && caller.member)
  }

  /** Why a call on one delivery is refused before it does anything. */
  function Refusal(s: Integration, id: string, caller: Caller): Option<CallError> {
    if id !in s.deliveries then Some(UnknownDelivery)
    else if !Owns(s.deliveries[id], caller) then Some(NotOwner)
    else None
  }

  /** What the caller is shown beside the text of the message. */
  datatype Shown = Shown(status: Status, firstRead: bool, settled: bool)

  function ReadCall(s: Integration, id: string, caller: Caller, now: int): (Integration, Result<Shown, CallError>) {
    var refusal := Refusal(s, id, caller);
    if refusal.Some? then (s, Err(refusal.value))
    else
      var s' := ReadMessage(s, id, now);
      (s', Ok(Shown(s'.deliveries[id].status, s.deliveries[id].readAt.None?, s.deliveries[id].settledAt.Some?)))
  }

  function HandledCall(s: Integration, id: string, caller: Caller, now: int): (Integration, Result<bool, CallError>) {
    var refusal := Refusal(s, id, caller);
    if refusal.Some? then (s, Err(refusal.value))
    else
      var (s', duplicate) := FinishHandled(s, id, now);
      (s', Ok(duplicate))
  }

  datatype ReplyRequest = ReplyRequest(id: string, conversation: string, caller: Caller, message: string)

  datatype ReplyResult = ReplyResult(posted: bool, duplicate: bool, message: string, postError: Option<string>)

  /** What a second reply is told, or why a first one is refused. */
  function ReplyRefusal(s: Integration, r: ReplyRequest, withinPlan: bool, canReply: bool): Option<CallError> {
    var refusal := Refusal(s, r.id, r.caller);
    if !withinPlan then Some(PlanLimit)
    else if refusal.Some? then refusal
    else if s.deliveries[r.id].conversation != r.conversation then Some(ConversationMismatch)
    else if !canReply then Some(OneWay)
    else None
  }

  function ReplyCall(s: Integration, r: ReplyRequest, withinPlan: bool, canReply: bool, error: Option<string>, now: int)
    : (Integration, Result<ReplyResult, CallError>)
    requires r.caller.Named?
  {
    if r.id in s.replies then
      var prior := s.replies[r.id];
      (s, Ok(ReplyResult(prior.postedAt.Some?, true, prior.message, prior.postError)))
    else
      var refusal := ReplyRefusal(s, r, withinPlan, canReply);
      if refusal.Some? then (s, Err(refusal.value))
      else (ChatReply(s, r.id, r.caller.addr, r.message, error, now), Ok(ReplyResult(error.None?, false, r.message, error)))
  }

  // ---------------------------------------------------------------- calls to the host's queue

  /** The visited reply is posted, which drains the host's queue of its delivery. */
  predicate PostsReply(deliveries: Deliveries, replies: map<string, Reply>, id: string, error: Option<string>, now: int) {
    id in replies && Retries(replies[id], now) && id in deliveries && error.None?
  }

  /** What `cancelHostQueue` is called for while replies are retried, in their order. */
  function PostedBy(
    deliveries: Deliveries, replies: map<string, Reply>, ids: seq<string>, errors: map<string, string>, now: int): seq<string>
  {
    if ids == [] then []
    else
      var last := ids[|ids| - 1];
      PostedBy(deliveries, replies, ids[..|ids| - 1], errors, now) +
      (if PostsReply(deliveries, replies, last, ErrorFor(errors, last), now) then [last] else [])
  }

  predicate Settles(deliveries: Deliveries, id: string, conversation: string) {
    id in deliveries && deliveries[id].settledAt.None? && deliveries[id].conversation == conversation
  }

  /** And while a conversation is settled. */
  function SettledBy(deliveries: Deliveries, ids: seq<string>, conversation: string): seq<string> {
    if ids == [] then []
    else
      var last := ids[|ids| - 1];
      SettledBy(deliveries, ids[..|ids| - 1], conversation) + (if Settles(deliveries, last, conversation) then [last] else [])
  }

  /** `requeue` is open to dead deliveries only; the answer says whether it was accepted. */
  function Requeue(s: Integration, id: string, error: Option<string>, now: int): (Integration, bool) {
    if id !in s.deliveries || !s.deliveries[id].status.Dead? then (s, false)
    else
      var d := s.deliveries[id].(status := Pending, attempts := 0, lastError := None, settledAt := None, nextAttemptAt := Some(now));
      (Dispatch(s.(deliveries := s.deliveries[id := d]), id, error, now), true)
  }

  // ---------------------------------------------------------------- the alarm

  predicate IsDue(d: Delivery, now: int) {
    d.settledAt.None? && !d.status.Dead? && d.nextAttemptAt.Some? && d.nextAttemptAt.value <= now
  }

  function ErrorFor(errors: map<string, string>, id: string): Option<string> {
    if id in errors then Some(errors[id]) else None
  }

  /** The due scan, for one listing of the deliveries; `errors` are the targets' answers. */
  function DispatchDue(s: Integration, ids: seq<string>, errors: map<string, string>, now: int): Integration {
    if ids == [] then s
    else
      var last := ids[|ids| - 1];
      var s0 := DispatchDue(s, ids[..|ids| - 1], errors, now);
      if last in s.deliveries && IsDue(s.deliveries[last], now)
      then Dispatch(s0, last, ErrorFor(errors, last), now)
      else s0
  }

  predicate Retries(reply: Reply, now: int) {
    reply.postedAt.None? && (reply.nextAttemptAt.Some? ==> reply.nextAttemptAt.value <= now)
  }

  /** What one visited reply comes to. */
  function Retried(s: Integration, id: string, reply: Reply, error: Option<string>, now: int): Integration {
    if !Retries(reply, now) || id !in s.deliveries then s
    else if error.Some? then PostFailed(s, id, reply, error.value, now)
    else Posted(s, id, reply, now)
  }

  function RetryReplies(s: Integration, ids: seq<string>, errors: map<string, string>, now: int): Integration {
    if ids == [] then s
    else
      var last := ids[|ids| - 1];
      var s0 := RetryReplies(s, ids[..|ids| - 1], errors, now);
      if last !in s.replies then s0 else Retried(s0, last, s.replies[last], ErrorFor(errors, last), now)
  }

  predicate WaitsDelivery(d: Delivery) {
    d.settledAt.None? && d.nextAttemptAt.Some?
  }

  predicate WaitsReply(reply: Reply) {
    reply.postedAt.None? && reply.nextAttemptAt.Some?
  }

  function NextDelivery(s: Integration, ids: seq<string>): Option<int> {
    if ids == [] then None
    else
      var last := ids[|ids| - 1];
      var next := NextDelivery(s, ids[..|ids| - 1]);
      if last in s.deliveries && WaitsDelivery(s.deliveries[last]) then Earlier(next, s.deliveries[last].nextAttemptAt.value) else next
  }

  function NextReply(s: Integration, next: Option<int>, ids: seq<string>): Option<int> {
    if ids == [] then next
    else
      var last := ids[|ids| - 1];
      var n := NextReply(s, next, ids[..|ids| - 1]);
      if last in s.replies && WaitsReply(s.replies[last]) then Earlier(n, s.replies[last].nextAttemptAt.value) else n
  }

  /** Listings of the two key ranges, complete and without repetition. */
  datatype Listing = Listing(deliveries: seq<string>, replies: seq<string>)

  function ScheduleNext(s: Integration, l: Listing, now: int): Integration {
    var next := NextReply(s, NextDelivery(s, l.deliveries), l.replies);
    var withHealth := if s.active && s.healthPing then Earlier(next, now + HEALTH_PING_INTERVAL_MS) else next;
    s.(budget := ScheduleSome(s.budget, withHealth, now, s.limit))
  }

  datatype AlarmEnv = AlarmEnv(
    listing: Listing,
    replyErrors: map<string, string>,      // replies the connector fails to post
    dispatchErrors: map<string, string>,   // deliveries their target refuses
    wakes: seq<int>)                       // instants the connector's wake and poll cycles ask for

  /** The handler; the platform has cleared the alarm before it runs. */
  function Alarm(s: Integration, env: AlarmEnv, now: int): Integration {
    var fired := s.(budget := s.budget.(alarm := None));
    if !s.active then fired
    else
      var retried := RetryReplies(fired, env.listing.replies, env.replyErrors, now);
      var dispatched := DispatchDue(retried, env.listing.deliveries, env.dispatchErrors, now);
      var woken := dispatched.(budget := ScheduleAll(dispatched.budget, env.wakes, now, s.limit));
      ScheduleNext(woken, env.listing, now)
  }

  function Pause(s: Integration): Integration {
    s.(active := false)
  }

  /** Resuming dispatches what is due and lets the connector put itself on the clock. */
  function Resume(s: Integration, env: AlarmEnv, now: int): Integration {
    var resumed := DispatchDue(s.(active := true), env.listing.deliveries, env.dispatchErrors, now);
    resumed.(budget := ScheduleAll(resumed.budget, env.wakes, now, s.limit))
  }

  ghost predicate IsListing(s: Integration, l: Listing) {
    && (forall id :: id in s.deliveries <==> id in l.deliveries)
    && (forall id :: id in s.replies <==> id in l.replies)
    && (forall i, j :: 0 <= i < j < |l.deliveries| ==> l.deliveries[i] != l.deliveries[j])
    && (forall i, j :: 0 <= i < j < |l.replies| ==> l.replies[i] != l.replies[j])
  }

  // ---------------------------------------------------------------- runs

  datatype Op =
    | DoIngest(event: Event, id: string, tokenGranted: bool, error: Option<string>, now: int)
    | DoRead(id: string, now: int)
    | DoReply(id: string, caller: string, message: string, error: Option<string>, now: int)
    | DoInjection(id: string, targetAddr: string, via: string, now: int)
    | DoHandled(id: string, now: int)
    | DoSettleConversation(conversation: string, now: int)
    | DoRequeue(id: string, error: Option<string>, now: int)
    | DoWake(at: int, now: int)
    | DoAlarm(env: AlarmEnv, now: int)
    | DoPause(now: int)
    | DoResume(env: AlarmEnv, now: int)

  function Apply(s: Integration, op: Op): Integration {
    match op
    case DoIngest(event, id, tokenGranted, error, now) => Ingest(s, event, id, tokenGranted, error, now).0
    case DoRead(id, now) => ReadMessage(s, id, now)
    case DoReply(id, caller, message, error, now) => ChatReply(s, id, caller, message, error, now)
    case DoInjection(id, targetAddr, via, now) => RecordInjection(s, id, targetAddr, via, now)
    case DoHandled(id, now) => FinishHandled(s, id, now).0
    case DoSettleConversation(conversation, now) => SettleConversation(s, conversation, now)
    case DoRequeue(id, error, now) => Requeue(s, id, error, now).0
    case DoWake(at, now) => s.(budget := ScheduleAt(s.budget, at, now, s.limit))
    case DoAlarm(env, now) => Alarm(s, env, now)
    case DoPause(_) => Pause(s)
    case DoResume(env, now) => Resume(s, env, now)
  }

  /** A nondecreasing clock, fresh ids, true listings, and an alarm that fires no earlier than it was set for. */
  ghost predicate Legal(s: Integration, clock: int, op: Op) {
    && clock <= op.now
    && (op.DoIngest? ==> op.id !in s.deliveries && op.id !in s.replies)
    && (op.DoAlarm? ==> s.budget.alarm.Some? && s.budget.alarm.value <= op.now && IsListing(s, op.env.listing))
    && (op.DoResume? ==> IsListing(s, op.env.listing))
  }

  ghost predicate LegalRun(s: Integration, clock: int, ops: seq<Op>)
    decreases |ops|
  {
    ops == [] || (Legal(s, clock, ops[0]) && LegalRun(Apply(s, ops[0]), ops[0].now, ops[1..]))
  }

  ghost function Run(s: Integration, ops: seq<Op>): Integration
    decreases |ops|
  {
    if ops == [] then s else Run(Apply(s, ops[0]), ops[1..])
  }

  function LastTime(clock: int, ops: seq<Op>): int {
    if ops == [] then clock else ops[|ops| - 1].now
  }
}
