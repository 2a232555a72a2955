/**
 The delivery queue of one host (src/do/host-hub.ts) as a state machine over its
 stored keys: queue entries `q:agent:seq`, per-recipient markers `d:id:agent` and
 the sequence counter. One function per storage-only stretch of the source; such
 a stretch is one atomic step of a Durable Object.
 */
module HubModel {
  import opened Common

  const MAX_DELIVERY_ATTEMPTS: nat := 40
  const DELIVERY_TTL_MS: int := 24 * 60 * 60 * 1_000
  const BASE_RETRY_MS: int := 5_000
  const MAX_RETRY_MS: int := 5 * 60 * 1_000
  const DRAFT_HOLD_BACKSTOP_MS: int := 5 * 60 * 1_000
  const QUEUE_BATCH_SIZE: nat := 128

  datatype QueueKey = QueueKey(agent: string, number: nat)

  datatype MarkerKey = MarkerKey(id: string, agent: string)

  /** Inputs a channel envelope is rendered from; the counter is true for one send only. */
  datatype ChannelEnvelope = ChannelEnvelope(body: string, redelivery: nat)

  datatype Payload = Verbatim(text: string) | Rendered(render: ChannelEnvelope)

  datatype Item = Item(
    id: string,
    org: string,
    agent: string,
    targetAddr: string,
    envelope: string,
    render: Option<ChannelEnvelope>,
    attempts: nat,
    enqueuedAt: int,
    lastAttemptAt: Option<int>,
    lastError: Option<string>,
    roomName: Option<string>,
    roomSeq: Option<nat>,
    connectionId: Option<string>)

  datatype Marker =
    | Queued(key: QueueKey)
    | Injected
    | Dead(key: QueueKey, item: Item)

  datatype HubState = HubState(
    sequence: nat,
    queue: map<QueueKey, Item>,
    markers: map<MarkerKey, Marker>)

  const EMPTY: HubState := HubState(0, map[], map[])

  datatype DeliveryInput = DeliveryInput(
    id: string,
    org: string,
    agent: string,
    targetAddr: string,
    envelope: string,
    render: Option<ChannelEnvelope>,
    enqueuedAt: Option<int>,
    roomName: Option<string>,
    roomSeq: Option<nat>,
    redelivery: bool,
    connectionId: Option<string>)

  datatype QueueStatus = Accepted | Duplicate | NoRoute

  function NewItem(input: DeliveryInput, now: int): Item {
    Item(input.id, input.org, input.agent, input.targetAddr, input.envelope, input.render, 0,
         if input.enqueuedAt.Some? then input.enqueuedAt.value else now,
         None, None, input.roomName, input.roomSeq, input.connectionId)
  }

  /** What reaches the wire: a channel envelope restates how often it was already handed over. */
  function Outgoing(item: Item): Payload {
    match item.render
    case None => Verbatim(item.envelope)
    case Some(r) => Rendered(r.(redelivery := r.redelivery + item.attempts))
  }

  datatype InboxEntry = InboxEntry(id: string, envelope: Payload, enqueuedAt: int)

  /** What a reader is shown of the listed entries. */
  function InboxView(s: HubState, listing: seq<QueueKey>): (view: seq<InboxEntry>)
    requires forall k :: k in listing ==> k in s.queue
    ensures |view| == |listing|
  {
    seq(|listing|, i requires 0 <= i < |listing| =>
      var item := s.queue[listing[i]]; InboxEntry(item.id, Outgoing(item), item.enqueuedAt))
  }

  function MarkerOf(item: Item): MarkerKey {
    MarkerKey(item.id, item.agent)
  }

  predicate IsQueued(s: HubState, m: MarkerKey) {
    m in s.markers && s.markers[m].Queued?
  }

  // ---------------------------------------------------------------- order of stored keys

  /** Primary collation rank: punctuation, then digits, then letters. */
  function CollationRank(c: char): nat {
    if c == '-' then 0
    else if c == ':' then 1
    else if '0' <= c <= '9' then 2 + (c as nat - '0' as nat)
    else 100 + c as nat
  }

  function Collated(s: string): (r: seq<nat>)
    ensures |r| == |s| && forall i :: 0 <= i < |s| ==> r[i] == CollationRank(s[i])
  {
    seq(|s|, i requires 0 <= i < |s| => CollationRank(s[i]))
  }

  /** Storage lists `d:id:agent` keys by code unit. */
  predicate ListedBefore(a: MarkerKey, b: MarkerKey) {
    Before(CodeUnits(a.agent), CodeUnits(b.agent))
  }

  /** The ack fallback sorts `q:agent:seq` keys with `localeCompare`: by agent first. */
  predicate CollatesBefore(a: MarkerKey, b: MarkerKey) {
    Before(Collated(a.agent + ":"), Collated(b.agent + ":"))
  }

  // ---------------------------------------------------------------- which entry an ack or nak means

  /**
   The marker an ack or nak for `id` refers to: the echoed agent's own when it is
   queued, otherwise the first queued marker of that id in collation order.
   */
  ghost predicate Resolves(s: HubState, id: string, agent: Option<string>, r: Option<MarkerKey>) {
    if agent.Some? && IsQueued(s, MarkerKey(id, agent.value)) then
      r == Some(MarkerKey(id, agent.value))
    else if r.None? then
      forall m :: m in s.markers && m.id == id ==> !IsQueued(s, m)
    else
      && r.value.id == id && IsQueued(s, r.value)
      && forall m :: m in s.markers && m.id == id && IsQueued(s, m) && m != r.value ==> CollatesBefore(r.value, m)
  }

  /** The dead marker `requeue` picks: the first listed one of that id. */
  ghost predicate FirstDead(s: HubState, id: string, r: Option<MarkerKey>) {
    if r.None? then
      forall m :: m in s.markers && m.id == id ==> !s.markers[m].Dead?
    else
      && r.value.id == id && r.value in s.markers && s.markers[r.value].Dead?
      && forall m :: m in s.markers && m.id == id && s.markers[m].Dead? && m != r.value ==> ListedBefore(r.value, m)
  }

  // ---------------------------------------------------------------- operations

  /** `queueDelivery` once admission has been decided. */
  function QueueDelivery(s: HubState, input: DeliveryInput, routable: bool, now: int): (HubState, QueueStatus) {
    var m := MarkerKey(input.id, input.agent);
    if !routable then (s, NoRoute)
    else if m in s.markers && (!input.redelivery || s.markers[m].Queued?) then (s, Duplicate)
    else
      var key := QueueKey(input.agent, s.sequence + 1);
      (HubState(s.sequence + 1, s.queue[key := NewItem(input, now)], s.markers[m := Queued(key)]), Accepted)
  }

  /** Removes the entry of a queued marker and records it as injected. */
  function Inject(s: HubState, m: MarkerKey): HubState
    requires IsQueued(s, m)
  {
    s.(queue := s.queue - {s.markers[m].key}, markers := s.markers[m := Injected])
  }

  function Ack(s: HubState, r: Option<MarkerKey>): HubState
    requires r.Some? ==> IsQueued(s, r.value)
  {
    if r.None? || s.markers[r.value].key !in s.queue then s else Inject(s, r.value)
  }

  /** `acknowledge` at the room a message came from. */
  datatype RoomCall = RoomCall(org: string, room: string, address: string, number: nat)

  /** `recordInjection` at the integration that owns a channel delivery. */
  datatype InjectionCall = InjectionCall(org: string, id: string, targetAddr: string, via: string)

  datatype AckCalls = AckCalls(room: Option<RoomCall>, injection: Option<InjectionCall>)

  predicate IsChannelId(id: string) {
    "dlv_" <= id
  }

  /** The calls an ack makes once the entry is settled. */
  function CallsFor(item: Item, id: string, via: Option<string>): AckCalls {
    AckCalls(if item.roomName.Some? && item.roomSeq.Some?
             then Some(RoomCall(item.org, item.roomName.value, item.targetAddr, item.roomSeq.value)) else None,
             if via.Some? && IsChannelId(id) then Some(InjectionCall(item.org, id, item.targetAddr, via.value)) else None)
  }

  function CallsAfterAck(s: HubState, r: Option<MarkerKey>, id: string, via: Option<string>): AckCalls
    requires r.Some? ==> IsQueued(s, r.value)
  {
    if r.None? || s.markers[r.value].key !in s.queue then AckCalls(None, None)
    else CallsFor(s.queue[s.markers[r.value].key], id, via)
  }

  function MarkDead(s: HubState, key: QueueKey, item: Item, error: string): HubState {
    s.(queue := s.queue - {key},
       markers := s.markers[MarkerOf(item) := Dead(key, item.(lastError := Some(error)))])
  }

  function Nak(s: HubState, r: Option<MarkerKey>, code: string, retryable: bool): HubState
    requires r.Some? ==> IsQueued(s, r.value)
  {
    if r.None? || s.markers[r.value].key !in s.queue then s
    else
      var key := s.markers[r.value].key;
      var item := s.queue[key];
      if !retryable then MarkDead(s, key, item, code)
      else if code == "draft_busy" then
        s.(queue := s.queue[key := item.(attempts := Max(item.attempts - 1, 0), lastError := Some(code))])
      else
        s.(queue := s.queue[key := item.(lastError := Some(code))])
  }

  function SettleInbox(s: HubState, agent: string, id: string): (HubState, bool) {
    var m := MarkerKey(id, agent);
    if !IsQueued(s, m) then (s, false) else (Ack(s, Some(m)), true)
  }

  function QueuedMarkers(s: HubState, id: string): set<MarkerKey> {
    set m | m in s.markers && m.id == id && s.markers[m].Queued?
  }

  function QueuedKeys(s: HubState, id: string): set<QueueKey> {
    set m | m in s.markers && m.id == id && s.markers[m].Queued? :: s.markers[m].key
  }

  /** `cancelDelivery`: every queued entry of the id goes, and its marker reads injected. */
  function Cancel(s: HubState, id: string): HubState {
    s.(queue := s.queue - QueuedKeys(s, id),
       markers := map m | m in s.markers :: if m.id == id && s.markers[m].Queued? then Injected else s.markers[m])
  }

  function Requeue(s: HubState, r: Option<MarkerKey>, now: int): HubState
    requires r.Some? ==> r.value in s.markers && s.markers[r.value].Dead?
  {
    if r.None? then s
    else
      var dead := s.markers[r.value];
      var item := dead.item.(attempts := 0, enqueuedAt := now, lastAttemptAt := None, lastError := None);
      s.(queue := s.queue[dead.key := item], markers := s.markers[r.value := Queued(dead.key)])
  }

  // ---------------------------------------------------------------- dispatch of one listed entry

  function RetryDelay(attempts: nat): int {
    Min(BASE_RETRY_MS * Pow2(if attempts == 0 then 0 else attempts - 1), MAX_RETRY_MS)
  }

  function DueAt(item: Item, now: int): int {
    if item.lastAttemptAt.None? then now else item.lastAttemptAt.value + RetryDelay(item.attempts)
  }

  /** Answers from outside the queue's own storage while one entry is dispatched. */
  datatype DispatchEnv = DispatchEnv(
    now: int,
    connectionActive: bool,       // D1: the organization connection the item is pinned to
    accepts: bool,                // a sink exists and accepts the agent
    sendError: Option<string>)    // the sink threw

  datatype DispatchOutcome =
    | Died
    | Waiting(wakeAt: int)
    | Lost
    | Sent(payload: Payload, retryAt: int)

  predicate Expired(item: Item, now: int) {
    item.attempts >= MAX_DELIVERY_ATTEMPTS || now - item.enqueuedAt >= DELIVERY_TTL_MS
  }

  predicate Revoked(item: Item, env: DispatchEnv) {
    item.connectionId.Some? && !env.connectionActive
  }

  function Attempted(item: Item, env: DispatchEnv): Item {
    item.(attempts := item.attempts + 1, lastAttemptAt := Some(env.now), lastError := env.sendError)
  }

  /**
   One iteration of `dispatchQueued` for the listed pair (key, item). `item` is
   the snapshot's copy, which may be stale: only the claim compares it with what
   is stored now.
   */
  function DispatchEntry(s: HubState, key: QueueKey, item: Item, env: DispatchEnv): (HubState, DispatchOutcome) {
    if Expired(item, env.now) then
      (MarkDead(s, key, item, if item.lastError.Some? then item.lastError.value else "delivery limit exceeded"), Died)
    else if Revoked(item, env) then
      (MarkDead(s, key, item, "organization_connection_revoked"), Died)
    else if !env.accepts then
      (s, Waiting(item.enqueuedAt + DELIVERY_TTL_MS))
    else if DueAt(item, env.now) > env.now then
      (s, Waiting(DueAt(item, env.now)))
    else if key !in s.queue || s.queue[key].attempts != item.attempts then
      (s, Lost)
    else
      (s.(queue := s.queue[key := Attempted(item, env)]),
       Sent(Outgoing(item), env.now + RetryDelay(item.attempts + 1)))
  }

  // ---------------------------------------------------------------- lemmas about order and resolution

  lemma CollationDistinguishes(a: string, b: string)
    requires Collated(a + ":") == Collated(b + ":")
    ensures a == b
  {
    assert |a| == |b|;
    forall i | 0 <= i < |a| ensures a[i] == b[i] {
      assert (a + ":")[i] == a[i] && (b + ":")[i] == b[i];
      assert Collated(a + ":")[i] == CollationRank(a[i]);
      assert Collated(b + ":")[i] == CollationRank(b[i]);
    }
  }

  /** An ack or nak means one entry: resolution is a function of the stored state. */
  lemma ResolvesUnique(s: HubState, id: string, agent: Option<string>, r: Option<MarkerKey>, r': Option<MarkerKey>)
    requires Resolves(s, id, agent, r) && Resolves(s, id, agent, r')
    ensures r == r'
  {
    if r.Some? && r'.Some? && r != r' {
      BeforeTotal(Collated(r.value.agent + ":"), Collated(r'.value.agent + ":"));
    }
  }

  /**
   An ack that echoes `agent` settles another recipient's entry exactly when that
   agent's own entry is not queued and some other one of the id still is.
   */
  lemma AckSettlesAnother(s: HubState, id: string, agent: string, r: Option<MarkerKey>)
    requires Resolves(s, id, Some(agent), r)
    ensures r.Some? && r.value.agent != agent <==>
            !IsQueued(s, MarkerKey(id, agent)) && exists m :: m in s.markers && m.id == id && IsQueued(s, m)
  {
  }

  /** Delays double from 5 s while the send count grows and stop at 5 minutes. */
  lemma RetryDelayShape(attempts: nat)
    ensures attempts <= 1 ==> RetryDelay(attempts) == BASE_RETRY_MS
    ensures 1 <= attempts <= 6 ==> RetryDelay(attempts) == BASE_RETRY_MS * Pow2(attempts - 1)
    ensures attempts >= 7 ==> RetryDelay(attempts) == MAX_RETRY_MS
    ensures RetryDelay(attempts) <= RetryDelay(attempts + 1)
  {
    if attempts >= 7 {
      Pow2Grows(6, attempts - 1);
      assert Pow2(6) == 64;
    } else {
      assert Pow2(0) == 1 && Pow2(1) == 2 && Pow2(2) == 4 && Pow2(3) == 8 && Pow2(4) == 16 && Pow2(5) == 32 && Pow2(6) == 64;
    }
  }

  lemma {:induction false} Pow2Grows(a: nat, b: nat)
    requires a <= b
    ensures 1 <= Pow2(a) <= Pow2(b)
    decreases b
  {
    if b > 0 {
      Pow2Grows(if a < b then a else a - 1, b - 1);
    }
  }
}
