/** Whole runs of a host's delivery queue: what every operation, in any order, keeps. */
module HubRuns {
  import opened Common
  import opened HubModel
  import opened HubInvariant
  import opened HubRename

  datatype HubOp =
    | DoQueue(input: DeliveryInput, routable: bool, now: int)
    | DoDispatch(key: QueueKey, env: DispatchEnv)
    | DoAck(id: string, agent: Option<string>, resolved: Option<MarkerKey>)
    | DoNak(id: string, agent: Option<string>, resolved: Option<MarkerKey>, code: string, retryable: bool)
    | DoSettle(reader: string, id: string)
    | DoCancel(id: string)
    | DoRequeue(id: string, resolved: Option<MarkerKey>, now: int)
    | DoRename(listing: seq<QueueKey>, renames: Renames, slug: string)

  /** The answers storage gives are true. */
  ghost predicate Possible(s: HubState, op: HubOp) {
    match op
    case DoQueue(_, _, _) => true
    case DoDispatch(key, _) => key in s.queue
    case DoAck(id, agent, r) => Resolves(s, id, agent, r)
    case DoNak(id, agent, r, _, _) => Resolves(s, id, agent, r)
    case DoSettle(_, _) => true
    case DoCancel(_) => true
    case DoRequeue(id, r, _) => FirstDead(s, id, r)
    case DoRename(listing, renames, _) => IsListing(s, listing) && RealRenames(renames)
  }

  /** And a rename is one the correspondence survives. */
  ghost predicate Legal(s: HubState, op: HubOp) {
    Possible(s, op) && (op.DoRename? ==> CollisionFree(s, op.listing, op.renames))
  }

  ghost function Apply(s: HubState, op: HubOp): HubState
    requires Possible(s, op)
  {
    match op
    case DoQueue(input, routable, now) => QueueDelivery(s, input, routable, now).0
    case DoDispatch(key, env) => DispatchEntry(s, key, s.queue[key], env).0
    case DoAck(_, _, r) => Ack(s, r)
    case DoNak(_, _, r, code, retryable) => Nak(s, r, code, retryable)
    case DoSettle(agent, id) => SettleInbox(s, agent, id).0
    case DoCancel(id) => Cancel(s, id)
    case DoRequeue(_, r, now) => Requeue(s, r, now)
    case DoRename(listing, renames, slug) => Rename(s, listing, renames, slug)
  }

  ghost predicate LegalRun(s: HubState, ops: seq<HubOp>)
    decreases |ops|
  {
    ops == [] || (Legal(s, ops[0]) && LegalRun(Apply(s, ops[0]), ops[1..]))
  }

  ghost function Run(s: HubState, ops: seq<HubOp>): HubState
    requires LegalRun(s, ops)
    decreases |ops|
  {
    if ops == [] then s else Run(Apply(s, ops[0]), ops[1..])
  }

  lemma StepKeeps(s: HubState, op: HubOp)
    requires Inv(s) && Legal(s, op)
    ensures Inv(Apply(s, op))
  {
    match op
    case DoQueue(input, routable, now) => QueueDeliveryKeeps(s, input, routable, now);
    case DoDispatch(key, env) => DispatchKeeps(s, key, env);
    case DoAck(_, _, r) => AckKeeps(s, r);
    case DoNak(_, _, r, code, retryable) => NakKeeps(s, r, code, retryable);
    case DoSettle(agent, id) =>
      if IsQueued(s, MarkerKey(id, agent)) {
        AckKeeps(s, Some(MarkerKey(id, agent)));
      }
    case DoCancel(id) => CancelKeeps(s, id);
    case DoRequeue(_, r, now) => RequeueKeeps(s, r, now);
    case DoRename(listing, renames, slug) => RenameKeeps(s, listing, renames, slug);
  }

  /** In every reachable state, entries and queued markers correspond one to one. */
  lemma {:induction false} RunKeeps(s: HubState, ops: seq<HubOp>)
    requires Inv(s) && LegalRun(s, ops)
    ensures Inv(Run(s, ops))
    decreases |ops|
  {
    if ops != [] {
      StepKeeps(s, ops[0]);
      RunKeeps(Apply(s, ops[0]), ops[1..]);
    }
  }

  lemma ReachableCorresponds(ops: seq<HubOp>)
    requires LegalRun(EMPTY, ops)
    ensures Inv(Run(EMPTY, ops))
  {
    EmptyInv();
    RunKeeps(EMPTY, ops);
  }

  // ---------------------------------------------------------------- nothing accepted is lost

  /** The message itself: what of an item is neither bookkeeping nor address. */
  datatype Message = Message(
    id: string,
    org: string,
    envelope: string,
    render: Option<ChannelEnvelope>,
    roomName: Option<string>,
    roomSeq: Option<nat>,
    connectionId: Option<string>)

  function Content(item: Item): Message {
    Message(item.id, item.org, item.envelope, item.render, item.roomName, item.roomSeq, item.connectionId)
  }

  /** The message a caller asks a hub to queue. */
  function MessageOf(input: DeliveryInput): Message {
    Message(input.id, input.org, input.envelope, input.render, input.roomName, input.roomSeq, input.connectionId)
  }

  /** The message a hub still holds for a pair: queued and dead keep it, injected is done with it. */
  ghost predicate Holds(s: HubState, m: MarkerKey, content: Message)
    requires m in s.markers
  {
    match s.markers[m]
    case Queued(k) => k in s.queue && Content(s.queue[k]) == content
    case Dead(_, item) => Content(item) == content
    case Injected => true
  }

  /** A rename that writes over no finished or dead pair. */
  ghost predicate Gentle(s: HubState, op: HubOp) {
    op.DoRename? ==>
      forall k :: k in op.listing && k in s.queue && k.agent in op.renames ==>
        var m := MarkerKey(s.queue[k].id, op.renames[k.agent]);
        m in s.markers ==> s.markers[m].Queued?
  }

  /** Where a pair is after the operation: only a rename moves it, and only while it is queued. */
  function Follow(s: HubState, op: HubOp, m: MarkerKey): MarkerKey {
    if op.DoRename? && IsQueued(s, m) && m.agent in op.renames then MarkerKey(m.id, op.renames[m.agent]) else m
  }

  predicate Reaccepts(s: HubState, op: HubOp, m: MarkerKey) {
    op.DoQueue? && MarkerKey(op.input.id, op.input.agent) == m && QueueDelivery(s, op.input, op.routable, op.now).1 == Accepted
  }

  /** The message most recently accepted for the pair. */
  function ContentAfter(s: HubState, op: HubOp, m: MarkerKey, content: Message): Message {
    if Reaccepts(s, op, m) then MessageOf(op.input) else content
  }

  lemma StepConserves(s: HubState, op: HubOp, m: MarkerKey, content: Message)
    requires Inv(s) && Legal(s, op) && Gentle(s, op)
    requires m in s.markers && Holds(s, m, content)
    ensures Follow(s, op, m) in Apply(s, op).markers
    ensures Holds(Apply(s, op), Follow(s, op, m), ContentAfter(s, op, m, content))
    ensures s.markers[m].Injected? && !Reaccepts(s, op, m) ==> Apply(s, op).markers[m].Injected?
  {
    match op
    case DoRename(listing, renames, slug) => RenameConserves(s, listing, renames, slug, m, content);
    case DoQueue(_, _, _) => QueueConserves(s, op, m, content);
    case DoCancel(id) => CancelConserves(s, id, m, content);
    case DoRequeue(_, r, now) => RequeueConserves(s, r, now, m, content);
    case DoDispatch(key, env) => DispatchConserves(s, key, env, m, content);
    case DoNak(_, _, r, code, retryable) => NakConserves(s, r, code, retryable, m, content);
    case DoAck(_, _, r) => AckConserves(s, r, m, content);
    case DoSettle(reader, id) =>
      AckConserves(s, if IsQueued(s, MarkerKey(id, reader)) then Some(MarkerKey(id, reader)) else None, m, content);
  }

  lemma QueueConserves(s: HubState, op: HubOp, m: MarkerKey, content: Message)
    requires Inv(s) && op.DoQueue? && m in s.markers && Holds(s, m, content)
    ensures var s' := Apply(s, op);
            && m in s'.markers && Holds(s', m, ContentAfter(s, op, m, content))
            && (s.markers[m].Injected? && !Reaccepts(s, op, m) ==> s'.markers[m].Injected?)
  {
    if s.markers[m].Queued? {
      assert MarkerBacked(s, m);
    }
  }

  lemma CancelConserves(s: HubState, id: string, m: MarkerKey, content: Message)
    requires Inv(s) && m in s.markers && Holds(s, m, content)
    ensures m in Cancel(s, id).markers && Holds(Cancel(s, id), m, content)
    ensures s.markers[m].Injected? ==> Cancel(s, id).markers[m].Injected?
  {
    CancelExact(s, id);
    if s.markers[m].Queued? {
      assert MarkerBacked(s, m);
    }
  }

  lemma RequeueConserves(s: HubState, r: Option<MarkerKey>, now: int, m: MarkerKey, content: Message)
    requires Inv(s) && m in s.markers && Holds(s, m, content)
    requires r.Some? ==> r.value in s.markers && s.markers[r.value].Dead?
    ensures m in Requeue(s, r, now).markers && Holds(Requeue(s, r, now), m, content)
    ensures s.markers[m].Injected? ==> Requeue(s, r, now).markers[m].Injected?
  {
    if r.Some? {
      assert DeadLetter(s, r.value);
    }
    if s.markers[m].Queued? {
      assert MarkerBacked(s, m);
    }
  }

  lemma AckConserves(s: HubState, r: Option<MarkerKey>, m: MarkerKey, content: Message)
    requires Inv(s) && m in s.markers && Holds(s, m, content)
    requires r.Some? ==> IsQueued(s, r.value)
    ensures m in Ack(s, r).markers && Holds(Ack(s, r), m, content)
    ensures s.markers[m].Injected? ==> Ack(s, r).markers[m].Injected?
  {
    if r.Some? {
      assert MarkerBacked(s, r.value);
    }
    if s.markers[m].Queued? {
      assert MarkerBacked(s, m);
    }
  }

  lemma DeathConserves(s: HubState, k: QueueKey, error: string, m: MarkerKey, content: Message)
    requires Inv(s) && k in s.queue && m in s.markers && Holds(s, m, content)
    ensures var s' := MarkDead(s, k, s.queue[k], error);
            && m in s'.markers && Holds(s', m, content)
            && (s.markers[m].Injected? ==> s'.markers[m].Injected?)
  {
    assert EntryMarked(s, k);
    if s.markers[m].Queued? {
      assert MarkerBacked(s, m);
    }
  }

  lemma NakConserves(s: HubState, r: Option<MarkerKey>, code: string, retryable: bool, m: MarkerKey, content: Message)
    requires Inv(s) && m in s.markers && Holds(s, m, content)
    requires r.Some? ==> IsQueued(s, r.value)
    ensures var s' := Nak(s, r, code, retryable);
            && m in s'.markers && Holds(s', m, content)
            && (s.markers[m].Injected? ==> s'.markers[m].Injected?)
  {
    if r.Some? {
      assert MarkerBacked(s, r.value);
      if !retryable {
        DeathConserves(s, s.markers[r.value].key, code, m, content);
      }
    }
  }

  lemma DispatchConserves(s: HubState, k: QueueKey, env: DispatchEnv, m: MarkerKey, content: Message)
    requires Inv(s) && k in s.queue && m in s.markers && Holds(s, m, content)
    ensures var s' := DispatchEntry(s, k, s.queue[k], env).0;
            && m in s'.markers && Holds(s', m, content)
            && (s.markers[m].Injected? ==> s'.markers[m].Injected?)
  {
    var item := s.queue[k];
    if Expired(item, env.now) {
      DeathConserves(s, k, if item.lastError.Some? then item.lastError.value else "delivery limit exceeded", m, content);
    } else if Revoked(item, env) {
      DeathConserves(s, k, "organization_connection_revoked", m, content);
    }
  }

  /** Where the rename loop takes one entry. */
  lemma EntryReaches(s: HubState, listing: seq<QueueKey>, renames: Renames, slug: string, k: QueueKey)
    requires Inv(s) && IsListing(s, listing) && RealRenames(renames) && k in s.queue
    ensures var s' := Rename(s, listing, renames, slug);
            var k' := QueueKey(Renamed(k.agent, renames), k.number);
            k' in s'.queue && s'.queue[k'].agent == k'.agent && s'.queue[k'].id == s.queue[k].id
            && Content(s'.queue[k']) == Content(s.queue[k])
            && s'.queue[k'] == (if k.agent in renames
                                then s.queue[k].(agent := renames[k.agent], targetAddr := renames[k.agent] + "@" + slug)
                                else s.queue[k])
  {
    var n := |listing|;
    var j :| 0 <= j < n && listing[j] == k;
    LoopReaches(s, listing, renames, slug, n);
    assert listing[..n] == listing;
    assert EntryAt(s, listing, renames, slug, n, Rename(s, listing, renames, slug), j);
    assert EntryMarked(s, k);
  }

  lemma QueuedConserves(s: HubState, listing: seq<QueueKey>, renames: Renames, slug: string, m: MarkerKey)
    requires Inv(s) && IsListing(s, listing) && RealRenames(renames) && CollisionFree(s, listing, renames)
    requires IsQueued(s, m)
    ensures s.markers[m].key in s.queue
    ensures var s' := Rename(s, listing, renames, slug);
            var m' := MarkerKey(m.id, Renamed(m.agent, renames));
            m' in s'.markers && s'.markers[m'].Queued? && s'.markers[m'].key in s'.queue
            && Content(s'.queue[s'.markers[m'].key]) == Content(s.queue[s.markers[m].key])
  {
    assert MarkerBacked(s, m);
    var k := s.markers[m].key;
    EntryReaches(s, listing, renames, slug, k);
    RenameKeeps(s, listing, renames, slug);
    assert EntryMarked(Rename(s, listing, renames, slug), QueueKey(Renamed(k.agent, renames), k.number));
  }

  lemma RenameConserves(
    s: HubState, listing: seq<QueueKey>, renames: Renames, slug: string, m: MarkerKey, content: Message)
    requires var op := DoRename(listing, renames, slug); Inv(s) && Legal(s, op) && Gentle(s, op)
    requires m in s.markers && Holds(s, m, content)
    ensures var op := DoRename(listing, renames, slug);
            Follow(s, op, m) in Rename(s, listing, renames, slug).markers
            && Holds(Rename(s, listing, renames, slug), Follow(s, op, m), content)
            && (s.markers[m].Injected? ==> Rename(s, listing, renames, slug).markers[m].Injected?)
  {
    if s.markers[m].Queued? {
      QueuedConserves(s, listing, renames, slug, m);
    } else {
      FinishedUntouched(s, listing, renames, slug, m);
    }
  }

  /** Some renamed entry of the message lands on the pair. */
  ghost predicate LandsOn(s: HubState, listing: seq<QueueKey>, renames: Renames, m: MarkerKey)
    requires forall k :: k in listing ==> k in s.queue
  {
    exists k :: k in listing && k.agent in renames && MarkerKey(s.queue[k].id, renames[k.agent]) == m
  }

  lemma {:induction false} FinishedUntouched(
    s: HubState, listing: seq<QueueKey>, renames: Renames, slug: string, m: MarkerKey)
    requires Inv(s) && m in s.markers && !s.markers[m].Queued?
    requires forall k :: k in listing ==> k in s.queue
    requires !LandsOn(s, listing, renames, m)
    ensures m in Rename(s, listing, renames, slug).markers
    ensures Rename(s, listing, renames, slug).markers[m] == s.markers[m]
  {
    if listing != [] {
      var last := listing[|listing| - 1];
      assert last in listing;
      assert EntryMarked(s, last);
      FinishedUntouched(s, listing[..|listing| - 1], renames, slug, m);
    }
  }

  /**
   A finished pair, an injected one or a dead letter, survives a rename exactly when no
   queued entry of the same message is renamed onto it; otherwise it is overwritten.
   */
  lemma FinishedKeptExact(s: HubState, listing: seq<QueueKey>, renames: Renames, slug: string, m: MarkerKey)
    requires Inv(s) && IsListing(s, listing) && RealRenames(renames) && CollisionFree(s, listing, renames)
    requires m in s.markers && !s.markers[m].Queued?
    ensures var s' := Rename(s, listing, renames, slug);
            m in s'.markers && s'.markers[m] == s.markers[m] <==> !LandsOn(s, listing, renames, m)
  {
    if LandsOn(s, listing, renames, m) {
      var k :| k in listing && k.agent in renames && MarkerKey(s.queue[k].id, renames[k.agent]) == m;
      assert EntryMarked(s, k);
      QueuedConserves(s, listing, renames, slug, MarkerOf(s.queue[k]));
    } else {
      FinishedUntouched(s, listing, renames, slug, m);
    }
  }

  /** It does happen: acked by one recipient, then the other is renamed onto it, and the message is queued for it again. */
  lemma RenameRevivesInjected(a: string, b: string, id: string, now: int)
    requires a != b
    ensures var m := MarkerKey(id, b);
            var rename := DoRename([QueueKey(a, 1)], map[a := b], "box");
            && Resolves(QueuedForBoth(a, b, id, now), id, Some(b), Some(m))
            && var acked := Ack(QueuedForBoth(a, b, id, now), Some(m));
               Inv(acked) && acked.markers[m].Injected? && Legal(acked, rename) && IsQueued(Apply(acked, rename), m)
  {
    var s, m, k := QueuedForBoth(a, b, id, now), MarkerKey(id, b), QueueKey(a, 1);
    QueuedForBothKeeps(a, b, id, now);
    AckKeeps(s, Some(m));
    var acked := Ack(s, Some(m));
    assert acked.queue.Keys == {k};
    assert CollisionFree(acked, [k], map[a := b]);
    assert [k][..0] == [];
    assert Rename(acked, [k], map[a := b], "box") == Move(acked, k, acked.queue[k], b, "box");
  }

  ghost predicate GentleRun(s: HubState, ops: seq<HubOp>)
    requires LegalRun(s, ops)
    decreases |ops|
  {
    ops == [] || (Gentle(s, ops[0]) && GentleRun(Apply(s, ops[0]), ops[1..]))
  }

  ghost function FollowRun(s: HubState, ops: seq<HubOp>, m: MarkerKey): MarkerKey
    requires LegalRun(s, ops)
    decreases |ops|
  {
    if ops == [] then m else FollowRun(Apply(s, ops[0]), ops[1..], Follow(s, ops[0], m))
  }

  ghost function ContentAfterRun(s: HubState, ops: seq<HubOp>, m: MarkerKey, content: Message): Message
    requires LegalRun(s, ops)
    decreases |ops|
  {
    if ops == [] then content
    else ContentAfterRun(Apply(s, ops[0]), ops[1..], Follow(s, ops[0], m), ContentAfter(s, ops[0], m, content))
  }

  /**
   Over any run, a pair once accepted always has exactly one marker, under its own
   or its new name, and until it is injected the hub still holds the very message
   last accepted for it, in exactly one queue entry or in the dead letter.
   */
  lemma {:induction false} RunConserves(s: HubState, ops: seq<HubOp>, m: MarkerKey, content: Message)
    requires Inv(s) && LegalRun(s, ops) && GentleRun(s, ops)
    requires m in s.markers && Holds(s, m, content)
    ensures FollowRun(s, ops, m) in Run(s, ops).markers
    ensures Holds(Run(s, ops), FollowRun(s, ops, m), ContentAfterRun(s, ops, m, content))
    decreases |ops|
  {
    if ops != [] {
      StepKeeps(s, ops[0]);
      StepConserves(s, ops[0], m, content);
      RunConserves(Apply(s, ops[0]), ops[1..], Follow(s, ops[0], m), ContentAfter(s, ops[0], m, content));
    }
  }

  /** A pair is queued exactly when it has a queue entry, and never more than one. */
  lemma OneEntryPerPair(s: HubState, m: MarkerKey)
    requires Inv(s)
    ensures IsQueued(s, m) <==> exists k :: k in s.queue && MarkerOf(s.queue[k]) == m
    ensures forall k, k' :: k in s.queue && k' in s.queue && MarkerOf(s.queue[k]) == m && MarkerOf(s.queue[k']) == m ==> k == k'
  {
    if IsQueued(s, m) {
      assert MarkerBacked(s, m);
    }
    forall k | k in s.queue && MarkerOf(s.queue[k]) == m ensures s.markers.Keys >= {m} && s.markers[m] == Queued(k) {
      assert EntryMarked(s, k);
    }
  }
}
