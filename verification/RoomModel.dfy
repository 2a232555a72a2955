/**
 The ordered ledger of one room (src/do/room.ts) as a state machine over its stored
 keys: `sequence`, `message:n`, `message_id:id` and `member:address`.
 */
module RoomModel {
  import opened Common

  const MAX_ROOM_MEMBERS: nat := 64
  const ROOM_RETENTION_MS: int := 7 * 24 * 60 * 60 * 1_000
  const PRUNE_BATCH: nat := 256
  const OPERATOR: string := "operator@transit"

  datatype Entry = Entry(id: string, number: nat, from: string, body: string, replyTo: Option<string>, createdAt: int)

  datatype Member = Member(address: string, org: string, joinedAt: int, lastAcked: nat)

  datatype RoomState = RoomState(
    sequence: nat,
    messages: map<nat, Entry>,
    ids: map<string, nat>,
    members: map<string, Member>)

  const EMPTY: RoomState := RoomState(0, map[], map[], map[])

  datatype Source = ByAgent | ByCreator | ByOperator

  datatype Policy = Open | Invite

  /** What join learns outside the member table: policy and organization connection. */
  datatype JoinCheck = JoinCheck(policy: Policy, source: Source, memberOrg: string, connectionValid: bool)

  datatype JoinResult = Joined | AlreadyMember | InviteOnly | NotConnected | RoomFull

  function Join(s: RoomState, address: string, check: JoinCheck, now: int): (RoomState, JoinResult) {
    if check.policy == Invite && check.source == ByAgent then (s, InviteOnly)
    else if !check.connectionValid then (s, NotConnected)
    else if address in s.members then (s, AlreadyMember)
    else if |s.members| >= MAX_ROOM_MEMBERS then (s, RoomFull)
    else (s.(members := s.members[address := Member(address, check.memberOrg, now, 0)]), Joined)
  }

  function Leave(s: RoomState, address: string): (RoomState, bool) {
    (s.(members := s.members - {address}), address in s.members)
  }

  datatype PostInput = PostInput(
    from: string,
    body: string,
    bodyTooLarge: bool,
    senderConnected: bool,   // D1, asked only for a member of another organization
    replyTo: Option<string>,
    id: string)              // the sender's message id, or a fresh one

  datatype PostError = BodyTooLarge | NotMember

  datatype Posted = Posted(entry: Entry, duplicate: bool)

  predicate MayPost(s: RoomState, roomOrg: string, input: PostInput) {
    input.from == OPERATOR
    || (input.from in s.members && (s.members[input.from].org == roomOrg || input.senderConnected))
  }

  /** The commit transaction: an id already in the ledger is answered with its entry. */
  function Commit(s: RoomState, input: PostInput, now: int): (RoomState, Posted) {
    if input.id in s.ids && s.ids[input.id] in s.messages then
      (s, Posted(s.messages[s.ids[input.id]], true))
    else
      var n := s.sequence + 1;
      var entry := Entry(input.id, n, input.from, input.body, input.replyTo, now);
      (s.(sequence := n, messages := s.messages[n := entry], ids := s.ids[input.id := n]), Posted(entry, false))
  }

  function Post(s: RoomState, roomOrg: string, input: PostInput, now: int): (RoomState, Result<Posted, PostError>) {
    if input.bodyTooLarge then (s, Err(BodyTooLarge))
    else if !MayPost(s, roomOrg, input) then (s, Err(NotMember))
    else
      var (s', posted) := Commit(s, input, now);
      (s', Ok(posted))
  }

  function Acknowledge(s: RoomState, address: string, n: nat): RoomState {
    if address !in s.members || n <= s.members[address].lastAcked then s
    else s.(members := s.members[address := s.members[address].(lastAcked := n)])
  }

  /** Storage answers with the first PRUNE_BATCH messages in key order. */
  ghost predicate IsOldest(s: RoomState, listing: seq<nat>) {
    && (forall n :: n in listing ==> n in s.messages)
    && (forall i, j :: 0 <= i < j < |listing| ==> listing[i] < listing[j])
    && |listing| <= PRUNE_BATCH
    && (forall n :: n in s.messages && n !in listing ==> |listing| == PRUNE_BATCH && forall k :: k in listing ==> k < n)
  }

  predicate ExpiredAt(entry: Entry, now: int) {
    entry.createdAt < now - ROOM_RETENTION_MS
  }

  function Doomed(s: RoomState, listing: seq<nat>, now: int): set<nat> {
    set n | n in listing && n in s.messages && ExpiredAt(s.messages[n], now)
  }

  function Prune(s: RoomState, listing: seq<nat>, now: int): RoomState {
    var doomed := Doomed(s, listing, now);
    s.(messages := s.messages - doomed, ids := s.ids - (set n | n in doomed && n in s.messages :: s.messages[n].id))
  }

  // ---------------------------------------------------------------- invariant

  ghost predicate Inv(s: RoomState, clock: int) {
    && Inverse(s) && Contiguous(s)
    && (forall n :: n in s.messages ==> s.messages[n].createdAt <= clock)
    && (forall n, k :: n in s.messages && k in s.messages && n <= k ==> s.messages[n].createdAt <= s.messages[k].createdAt)
    && |s.members| <= MAX_ROOM_MEMBERS
    && (forall a :: a in s.members ==> s.members[a].lastAcked <= s.sequence)
  }

  /** The message store and the id index are mutual inverses. */
  ghost predicate Inverse(s: RoomState) {
    && (forall n :: n in s.messages ==>
          s.messages[n].number == n && s.messages[n].id in s.ids && s.ids[s.messages[n].id] == n)
    && (forall id :: id in s.ids ==> s.ids[id] in s.messages && s.messages[s.ids[id]].id == id)
  }

  /** What is retained is a run of numbers ending at the current sequence. */
  ghost predicate Contiguous(s: RoomState) {
    && (forall n :: n in s.messages ==> 1 <= n <= s.sequence)
    && (forall n, k :: n in s.messages && n <= k <= s.sequence ==> k in s.messages)
  }

  datatype RoomOp =
    | DoJoin(address: string, check: JoinCheck, now: int)
    | DoLeave(address: string, now: int)
    | DoPost(roomOrg: string, input: PostInput, now: int)
    | DoAcknowledge(address: string, n: nat, now: int)
    | DoPrune(listing: seq<nat>, now: int)

  /** A nondecreasing clock, true listings, and acks that carry issued numbers. */
  ghost predicate Legal(s: RoomState, clock: int, op: RoomOp) {
    && clock <= op.now
    && (op.DoAcknowledge? ==> op.n <= s.sequence)
    && (op.DoPrune? ==> IsOldest(s, op.listing))
  }

  function Apply(s: RoomState, op: RoomOp): RoomState {
    match op
    case DoJoin(address, check, now) => Join(s, address, check, now).0
    case DoLeave(address, _) => Leave(s, address).0
    case DoPost(roomOrg, input, now) => Post(s, roomOrg, input, now).0
    case DoAcknowledge(address, n, _) => Acknowledge(s, address, n)
    case DoPrune(listing, now) => Prune(s, listing, now)
  }

  ghost predicate LegalRun(s: RoomState, clock: int, ops: seq<RoomOp>)
    decreases |ops|
  {
    ops == [] || (Legal(s, clock, ops[0]) && LegalRun(Apply(s, ops[0]), ops[0].now, ops[1..]))
  }

  ghost function Run(s: RoomState, ops: seq<RoomOp>): RoomState
    decreases |ops|
  {
    if ops == [] then s else Run(Apply(s, ops[0]), ops[1..])
  }

  function LastTime(clock: int, ops: seq<RoomOp>): int {
    if ops == [] then clock else ops[|ops| - 1].now
  }

  /** With a clock that never went back, what a sweep deletes is an initial run of the ledger. */
  lemma DoomedIsPrefix(s: RoomState, clock: int, listing: seq<nat>, now: int, n: nat, k: nat)
    requires Inv(s, clock) && IsOldest(s, listing)
    requires n in s.messages && n <= k && k in Doomed(s, listing, now)
    ensures n in Doomed(s, listing, now)
  {
    assert n in listing;
  }

  lemma PruneContiguous(s: RoomState, clock: int, listing: seq<nat>, now: int)
    requires Inv(s, clock) && IsOldest(s, listing)
    ensures Contiguous(Prune(s, listing, now))
  {
    var s' := Prune(s, listing, now);
    forall n, k | n in s'.messages && n <= k <= s'.sequence ensures k in s'.messages {
      assert k in s.messages;
      if k in Doomed(s, listing, now) {
        DoomedIsPrefix(s, clock, listing, now, n, k);
      }
    }
  }

  lemma PruneInverse(s: RoomState, listing: seq<nat>, now: int)
    requires Inverse(s)
    ensures Inverse(Prune(s, listing, now))
  {
    var s' := Prune(s, listing, now);
    forall id | id in s'.ids ensures s'.ids[id] in s'.messages && s'.messages[s'.ids[id]].id == id {
      var n := s.ids[id];
      assert s.messages[n].id == id;
    }
  }

  lemma PruneKeeps(s: RoomState, clock: int, listing: seq<nat>, now: int)
    requires Inv(s, clock) && IsOldest(s, listing) && clock <= now
    ensures Inv(Prune(s, listing, now), now)
  {
    PruneContiguous(s, clock, listing, now);
    PruneInverse(s, listing, now);
  }

  lemma JoinBounded(s: RoomState, address: string, check: JoinCheck, now: int)
    requires |s.members| <= MAX_ROOM_MEMBERS
    ensures |Join(s, address, check, now).0.members| <= MAX_ROOM_MEMBERS
  {
    if Join(s, address, check, now).1.Joined? {
      assert Join(s, address, check, now).0.members.Keys == s.members.Keys + {address};
    }
  }

  lemma LeaveBounded(s: RoomState, address: string)
    ensures |Leave(s, address).0.members| <= |s.members|
  {
    var left := s.members - {address};
    if address in s.members {
      assert s.members.Keys == left.Keys + {address};
    } else {
      assert left == s.members;
    }
  }

  /** The ledger does not depend on the member table. */
  lemma MemberChangeKeeps(s: RoomState, clock: int, members: map<string, Member>, now: int)
    requires Inv(s, clock) && clock <= now && |members| <= MAX_ROOM_MEMBERS
    requires forall a :: a in members ==> members[a].lastAcked <= s.sequence
    ensures Inv(s.(members := members), now)
  {
    var s' := s.(members := members);
    assert Inverse(s') && Contiguous(s');
  }

  lemma JoinKeeps(s: RoomState, clock: int, address: string, check: JoinCheck, now: int)
    requires Inv(s, clock) && clock <= now
    ensures Inv(Join(s, address, check, now).0, now)
  {
    JoinBounded(s, address, check, now);
    MemberChangeKeeps(s, clock, Join(s, address, check, now).0.members, now);
  }

  lemma LeaveKeeps(s: RoomState, clock: int, address: string, now: int)
    requires Inv(s, clock) && clock <= now
    ensures Inv(Leave(s, address).0, now)
  {
    LeaveBounded(s, address);
    MemberChangeKeeps(s, clock, Leave(s, address).0.members, now);
  }

  lemma AcknowledgeKeeps(s: RoomState, clock: int, address: string, n: nat, now: int)
    requires Inv(s, clock) && clock <= now && n <= s.sequence
    ensures Inv(Acknowledge(s, address, n), now)
  {
    var members := Acknowledge(s, address, n).members;
    assert members.Keys == s.members.Keys;
    assert |members| == |members.Keys| == |s.members.Keys| == |s.members|;
    MemberChangeKeeps(s, clock, members, now);
  }

  lemma CommitInverse(s: RoomState, input: PostInput, now: int)
    requires Inverse(s) && Contiguous(s) && input.id !in s.ids
    ensures Inverse(Commit(s, input, now).0)
  {
  }

  lemma CommitContiguous(s: RoomState, input: PostInput, now: int)
    requires Contiguous(s)
    ensures Contiguous(Commit(s, input, now).0)
  {
  }

  lemma CommitKeeps(s: RoomState, clock: int, input: PostInput, now: int)
    requires Inv(s, clock) && clock <= now
    ensures Inv(Commit(s, input, now).0, now)
  {
    if input.id !in s.ids {
      CommitInverse(s, input, now);
      CommitContiguous(s, input, now);
    }
  }

  lemma PostKeeps(s: RoomState, clock: int, roomOrg: string, input: PostInput, now: int)
    requires Inv(s, clock) && clock <= now
    ensures Inv(Post(s, roomOrg, input, now).0, now)
  {
    CommitKeeps(s, clock, input, now);
    MemberChangeKeeps(s, clock, s.members, now);
  }

  lemma StepKeeps(s: RoomState, clock: int, op: RoomOp)
    requires Inv(s, clock) && Legal(s, clock, op)
    ensures Inv(Apply(s, op), op.now)
  {
    match op
    case DoPrune(listing, now) => PruneKeeps(s, clock, listing, now);
    case DoPost(roomOrg, input, now) => PostKeeps(s, clock, roomOrg, input, now);
    case DoJoin(address, check, now) => JoinKeeps(s, clock, address, check, now);
    case DoLeave(address, now) => LeaveKeeps(s, clock, address, now);
    case DoAcknowledge(address, n, now) => AcknowledgeKeeps(s, clock, address, n, now);
  }

  /** In every reachable room: inverse indexes, a contiguous ledger, at most 64 members, acks within the ledger. */
  lemma {:induction false} RunKeeps(s: RoomState, clock: int, ops: seq<RoomOp>)
    requires Inv(s, clock) && LegalRun(s, clock, ops)
    ensures Inv(Run(s, ops), LastTime(clock, ops))
    decreases |ops|
  {
    if ops != [] {
      StepKeeps(s, clock, ops[0]);
      RunKeeps(Apply(s, ops[0]), ops[0].now, ops[1..]);
    }
  }

  // ---------------------------------------------------------------- numbers are issued once

  /** The numbers a run newly issues, in order. */
  ghost function Issued(s: RoomState, ops: seq<RoomOp>): seq<nat>
    decreases |ops|
  {
    if ops == [] then []
    else
      var op := ops[0];
      var rest := Issued(Apply(s, op), ops[1..]);
      if op.DoPost? then
        var answer := Post(s, op.roomOrg, op.input, op.now).1;
        if answer.Ok? && !answer.value.duplicate then [answer.value.entry.number] + rest else rest
      else rest
  }

  /** Numbers are issued as the successors of the current sequence, without gap or repetition. */
  lemma {:induction false} IssuedInOrder(s: RoomState, ops: seq<RoomOp>)
    ensures Run(s, ops).sequence == s.sequence + |Issued(s, ops)|
    ensures forall i :: 0 <= i < |Issued(s, ops)| ==> Issued(s, ops)[i] == s.sequence + 1 + i
    decreases |ops|
  {
    if ops != [] {
      IssuedInOrder(Apply(s, ops[0]), ops[1..]);
    }
  }

  /** While a member stays, its acknowledged number only grows. */
  lemma AckGrows(s: RoomState, op: RoomOp, address: string)
    requires address in s.members && address in Apply(s, op).members
    ensures s.members[address].lastAcked <= Apply(s, op).members[address].lastAcked
  {
  }

  /** The member is there all along. */
  ghost predicate Stays(s: RoomState, ops: seq<RoomOp>, address: string)
    decreases |ops|
  {
    address in s.members && (ops != [] ==> Stays(Apply(s, ops[0]), ops[1..], address))
  }

  /** Over any run in which a member stays, its acknowledged number only grows. */
  lemma {:induction false} AckGrowsOverRuns(s: RoomState, ops: seq<RoomOp>, address: string)
    requires Stays(s, ops, address)
    ensures address in Run(s, ops).members && s.members[address].lastAcked <= Run(s, ops).members[address].lastAcked
    decreases |ops|
  {
    if ops != [] {
      AckGrows(s, ops[0], address);
      AckGrowsOverRuns(Apply(s, ops[0]), ops[1..], address);
    }
  }

  /** An ack is recorded unchecked: it stays within the ledger exactly when its number was issued or is stale. */
  lemma AckWithinLedgerExact(s: RoomState, address: string, n: nat)
    requires address in s.members && s.members[address].lastAcked <= s.sequence
    ensures Acknowledge(s, address, n).members[address].lastAcked <= s.sequence <==> n <= s.sequence
  {
  }

  // ---------------------------------------------------------------- replays

  /** How many new ledger entries a run creates under one id. */
  ghost function Entries(s: RoomState, ops: seq<RoomOp>, id: string): nat
    decreases |ops|
  {
    if ops == [] then 0
    else
      var op := ops[0];
      (if op.DoPost? && op.input.id == id && Post(s, op.roomOrg, op.input, op.now).1.Ok?
          && !Post(s, op.roomOrg, op.input, op.now).1.value.duplicate then 1 else 0)
      + Entries(Apply(s, op), ops[1..], id)
  }

  ghost predicate NeverPruned(s: RoomState, ops: seq<RoomOp>, id: string)
    decreases |ops|
  {
    ops == [] || (
      && (ops[0].DoPrune? && id in s.ids ==> s.ids[id] !in Doomed(s, ops[0].listing, ops[0].now))
      && NeverPruned(Apply(s, ops[0]), ops[1..], id))
  }

  /** However often a message id is posted, the ledger gets one entry for it while that entry is retained. */
  lemma {:induction false} OneEntryPerId(s: RoomState, clock: int, ops: seq<RoomOp>, id: string)
    requires Inv(s, clock) && LegalRun(s, clock, ops) && NeverPruned(s, ops, id)
    ensures Entries(s, ops, id) <= (if id in s.ids then 0 else 1)
    ensures id in s.ids ==> var s' := Run(s, ops);
                            id in s'.ids && s'.ids[id] == s.ids[id]
                            && s.ids[id] in s.messages && s.ids[id] in s'.messages
                            && s'.messages[s.ids[id]] == s.messages[s.ids[id]]
    decreases |ops|
  {
    if ops != [] {
      StepKeeps(s, clock, ops[0]);
      if id in s.ids {
        IdRetained(s, clock, ops[0], id);
      }
      OneEntryPerId(Apply(s, ops[0]), ops[0].now, ops[1..], id);
    }
  }

  lemma IdRetained(s: RoomState, clock: int, op: RoomOp, id: string)
    requires Inv(s, clock) && Legal(s, clock, op) && id in s.ids
    requires op.DoPrune? ==> s.ids[id] !in Doomed(s, op.listing, op.now)
    ensures var s' := Apply(s, op);
            id in s'.ids && s'.ids[id] == s.ids[id] && s.ids[id] in s'.messages
            && s'.messages[s.ids[id]] == s.messages[s.ids[id]]
  {
    if op.DoPrune? {
      var doomed := Doomed(s, op.listing, op.now);
      forall n | n in doomed ensures n in s.messages && s.messages[n].id != id {
        assert s.ids[s.messages[n].id] == n;
      }
    }
  }
}
