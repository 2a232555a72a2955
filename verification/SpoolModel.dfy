/**
 The daemon's outbox spool (daemon/spool.go) as a state machine over its
 directories: `outbox` with `msg-` and `claimed-` files, `history` and `dead`.
 Every operation runs under the store's lock and is one atomic step.
 */
module SpoolModel {
  import opened Common

  const OUTBOX_LIMIT: nat := 10_000
  const SECOND_NS: int := 1_000_000_000
  const MAX_WAIT_NS: int := 30 * SECOND_NS
  const OUTBOX_TTL_NS: int := 24 * 60 * 60 * SECOND_NS

  datatype Message = Message(
    id: string,
    from: string,
    to: string,
    body: string,
    replyTo: string,
    ts: int,
    attempts: nat,
    lastAttempt: Option<int>,
    lastError: string)

  /** `msg-<time>-<id>.json`, or `claimed-...` while a sender holds it. */
  datatype FileName = FileName(claimed: bool, ts: int, id: string)

  datatype Claim = Claim(message: Message, path: FileName)

  datatype Spool = Spool(outbox: map<FileName, Message>, sent: set<string>, dead: map<string, Message>)

  const EMPTY: Spool := Spool(map[], {}, map[])

  function WaitingName(m: Message): FileName {
    FileName(false, m.ts, m.id)
  }

  /** Sorted directory order: claims first, then by time, then by id. */
  predicate NameBefore(a: FileName, b: FileName) {
    if a.claimed != b.claimed then a.claimed
    else a.ts < b.ts || (a.ts == b.ts && Before(CodeUnits(a.id + ".json"), CodeUnits(b.id + ".json")))
  }

  ghost predicate IsDirectory(s: Spool, names: seq<FileName>) {
    && (forall n :: n in names <==> n in s.outbox)
    && (forall i, j :: 0 <= i < j < |names| ==> names[i] != names[j] && NameBefore(names[i], names[j]))
  }

  // ---------------------------------------------------------------- operations

  datatype EnqueueResult = Stored | AlreadySpooled | Incomplete | Full

  predicate Complete(m: Message) {
    m.from != "" && m.to != "" && m.body != ""
  }

  predicate InOutbox(s: Spool, id: string) {
    exists n :: n in s.outbox && n.id == id
  }

  function Enqueue(s: Spool, m: Message): (Spool, EnqueueResult) {
    if !Complete(m) then (s, Incomplete)
    else if InOutbox(s, m.id) then (s, AlreadySpooled)
    else if |s.outbox| >= OUTBOX_LIMIT then (s, Full)
    else (s.(outbox := s.outbox[WaitingName(m) := m]), Stored)
  }

  /** One second doubling to thirty after each failed attempt. */
  function Wait(attempts: nat): int {
    Min(SECOND_NS * Pow2(if attempts == 0 then 0 else if attempts > 6 then 5 else attempts - 1), MAX_WAIT_NS)
  }

  predicate Eligible(m: Message, now: int) {
    m.lastAttempt.Some? ==> m.lastAttempt.value + Wait(m.attempts) <= now
  }

  predicate Claimable(s: Spool, n: FileName, now: int) {
    n in s.outbox && !n.claimed && Eligible(s.outbox[n], now)
  }

  /** The name `Claim` takes: the first claimable one in directory order. */
  ghost predicate IsEarliestClaimable(s: Spool, now: int, r: Option<FileName>) {
    if r.None? then forall n :: !Claimable(s, n, now)
    else
      && Claimable(s, r.value, now)
      && forall n :: Claimable(s, n, now) && n != r.value ==> NameBefore(r.value, n)
  }

  function ClaimedName(n: FileName): FileName {
    n.(claimed := true)
  }

  function Unclaimed(n: FileName): FileName {
    n.(claimed := false)
  }

  function TakeClaim(s: Spool, n: FileName): (Spool, Claim)
    requires n in s.outbox
  {
    (s.(outbox := (s.outbox - {n})[ClaimedName(n) := s.outbox[n]]), Claim(s.outbox[n], ClaimedName(n)))
  }

  function Failed(m: Message, now: int, error: string): Message {
    m.(attempts := m.attempts + 1, lastAttempt := Some(now), lastError := error)
  }

  /** Writes the claim file, creating it if it is gone, then renames it back. */
  function Release(s: Spool, c: Claim, now: int, error: string): Spool {
    var m := Failed(c.message, now, error);
    s.(outbox := (s.outbox - {c.path})[WaitingName(m) := m])
  }

  function Ack(s: Spool, c: Claim): Spool {
    s.(outbox := s.outbox - {c.path}, sent := s.sent + {c.message.id})
  }

  function Kill(s: Spool, c: Claim): Spool {
    s.(outbox := s.outbox - {c.path}, dead := s.dead[c.message.id := c.message])
  }

  /** Claimed files are expired too: a claim that old is abandoned. */
  function Expire(s: Spool, names: seq<FileName>, cutoff: int): Spool
    requires forall n :: n in names ==> n in s.outbox
  {
    if names == [] then s
    else
      var last := names[|names| - 1];
      var s0 := Expire(s, names[..|names| - 1], cutoff);
      if s.outbox[last].ts >= cutoff then s0
      else s0.(outbox := s0.outbox - {last}, dead := s0.dead[s.outbox[last].id := s.outbox[last]])
  }

  /** What an expiry reports, so that each sender can be told. */
  function Reaped(s: Spool, names: seq<FileName>, cutoff: int): seq<Message>
    requires forall n :: n in names ==> n in s.outbox
  {
    if names == [] then []
    else
      var last := names[|names| - 1];
      var reaped := Reaped(s, names[..|names| - 1], cutoff);
      if s.outbox[last].ts >= cutoff then reaped else reaped + [s.outbox[last]]
  }

  function Reclaim(s: Spool, names: seq<FileName>): Spool
    requires forall n :: n in names ==> n in s.outbox
  {
    if names == [] then s
    else
      var last := names[|names| - 1];
      var s0 := Reclaim(s, names[..|names| - 1]);
      if !last.claimed then s0
      else s0.(outbox := (s0.outbox - {last})[Unclaimed(last) := s.outbox[last]])
  }

  // ---------------------------------------------------------------- settling a claim (daemon/client.go)

  datatype SendOutcome =
    | Offline
    | WriteFailed(error: string)
    | Failure(error: string)
    | Answered(code: string)     // the empty code is an ack
    | TimedOut
    | Cancelled(error: string)

  predicate PermanentSendNak(code: string) {
    code == "no_route" || code == "not_member" || code == "body_too_large" || code == "reserved_name"
  }

  function ReleaseReason(outcome: SendOutcome): string {
    match outcome
    case Offline => "offline"
    case WriteFailed(error) => error
    case Failure(error) => error
    case Answered(code) => code
    case TimedOut => "send ack timeout"
    case Cancelled(error) => error
  }

  function Settle(s: Spool, c: Claim, outcome: SendOutcome, now: int): Spool {
    if outcome == Answered("") then Ack(s, c)
    else if outcome.Answered? && PermanentSendNak(outcome.code) then Kill(s, c)
    else Release(s, c, now, ReleaseReason(outcome))
  }

  // ---------------------------------------------------------------- conservation

  /** Files carry the id and time they are named for, and no id has two. */
  ghost predicate WellNamed(s: Spool) {
    && (forall n :: n in s.outbox ==> s.outbox[n].id == n.id && s.outbox[n].ts == n.ts)
    && (forall n, n' :: n in s.outbox && n' in s.outbox && n.id == n'.id ==> n == n')
  }

  /** Every id ever spooled is in exactly one of outbox, sent and dead. */
  ghost predicate Conserved(s: Spool, ever: set<string>) {
    && WellNamed(s)
    && (forall id :: id in ever <==> InOutbox(s, id) || id in s.sent || id in s.dead)
    && (forall id :: InOutbox(s, id) ==> id !in s.sent && id !in s.dead)
    && (forall id :: id in s.sent ==> id !in s.dead)
  }

  predicate WithinLimit(s: Spool) {
    |s.outbox| <= OUTBOX_LIMIT
  }

  /** A claim that was handed out for a message of this spool. */
  ghost predicate HandedOut(s: Spool, c: Claim, ever: set<string>) {
    && c.path.claimed && c.path.id == c.message.id && c.path.ts == c.message.ts
    && c.message.id in ever
    && (forall n :: n in s.outbox && n.id == c.message.id ==> n.ts == c.path.ts)
  }

  /** The claim is still the file it was: neither settled nor reclaimed nor expired since. */
  predicate Current(s: Spool, c: Claim) {
    c.path in s.outbox
  }

  lemma Added(s: Spool, m: Message)
    requires WellNamed(s) && !InOutbox(s, m.id)
    ensures var s' := s.(outbox := s.outbox[WaitingName(m) := m]);
            WellNamed(s') && forall id :: InOutbox(s', id) <==> InOutbox(s, id) || id == m.id
  {
    var s' := s.(outbox := s.outbox[WaitingName(m) := m]);
    assert WaitingName(m) in s'.outbox;
    forall id | InOutbox(s, id) ensures InOutbox(s', id) {
      var n :| n in s.outbox && n.id == id;
      assert n in s'.outbox;
    }
  }

  /** Replacing one file of an id by another name for the same id. */
  lemma Renamed(s: Spool, n: FileName, n': FileName, m: Message)
    requires WellNamed(s) && n in s.outbox && n'.id == n.id && m.id == n'.id && m.ts == n'.ts
    ensures var s' := s.(outbox := (s.outbox - {n})[n' := m]);
            WellNamed(s') && forall id :: InOutbox(s', id) <==> InOutbox(s, id)
  {
    var s' := s.(outbox := (s.outbox - {n})[n' := m]);
    forall id | InOutbox(s, id) ensures InOutbox(s', id) {
      var k :| k in s.outbox && k.id == id;
      assert (if k == n then n' else k) in s'.outbox;
    }
    forall id | InOutbox(s', id) ensures InOutbox(s, id) {
      var k :| k in s'.outbox && k.id == id;
      assert (if k == n' then n else k) in s.outbox;
    }
  }

  lemma Removed(s: Spool, n: FileName)
    requires WellNamed(s) && n in s.outbox
    ensures var s' := s.(outbox := s.outbox - {n});
            WellNamed(s') && forall id :: InOutbox(s', id) <==> InOutbox(s, id) && id != n.id
  {
    var s' := s.(outbox := s.outbox - {n});
    forall id | InOutbox(s, id) && id != n.id ensures InOutbox(s', id) {
      var k :| k in s.outbox && k.id == id;
      assert k in s'.outbox;
    }
  }

  /** Whether an id is in the outbox depends on the outbox alone. */
  lemma SameOutbox(s: Spool, s': Spool)
    requires s.outbox == s'.outbox
    ensures forall id :: InOutbox(s, id) <==> InOutbox(s', id)
    ensures WellNamed(s) <==> WellNamed(s')
  {
    forall id ensures InOutbox(s, id) <==> InOutbox(s', id) {
      if n :| n in s.outbox && n.id == id {
        assert n in s'.outbox;
      }
    }
  }

  lemma EnqueueConserves(s: Spool, m: Message, ever: set<string>)
    requires Conserved(s, ever) && m.id !in s.sent && m.id !in s.dead
    ensures var (s', result) := Enqueue(s, m);
            && Conserved(s', if result.Stored? then ever + {m.id} else ever)
            && (result.Stored? ==> m.id !in ever)
  {
    if Enqueue(s, m).1.Stored? {
      Added(s, m);
    }
  }

  lemma ClaimConserves(s: Spool, n: FileName, now: int, ever: set<string>)
    requires Conserved(s, ever) && Claimable(s, n, now)
    ensures var (s', c) := TakeClaim(s, n);
            && Conserved(s', ever) && HandedOut(s', c, ever) && Current(s', c)
            && c.message == s.outbox[n]
  {
    Renamed(s, n, ClaimedName(n), s.outbox[n]);
    assert InOutbox(s, n.id);
  }

  /** A release keeps the spool conserved exactly when the message is still in the outbox. */
  lemma ReleaseExact(s: Spool, c: Claim, now: int, error: string, ever: set<string>)
    requires Conserved(s, ever) && HandedOut(s, c, ever)
    ensures Conserved(Release(s, c, now, error), ever) <==> InOutbox(s, c.message.id)
  {
    var s' := Release(s, c, now, error);
    var m := Failed(c.message, now, error);
    assert WaitingName(m) in s'.outbox && InOutbox(s', m.id);
    if InOutbox(s, c.message.id) {
      var n :| n in s.outbox && n.id == c.message.id;
      if n != c.path {
        assert n == WaitingName(m);
        assert s'.outbox == (s.outbox - {n})[n := m];
      }
      Renamed(s, n, WaitingName(m), m);
    }
  }

  /** Without its file, taking a claim out of the outbox does nothing. */
  lemma NotCurrentNoFile(s: Spool, c: Claim)
    requires !Current(s, c)
    ensures s.outbox - {c.path} == s.outbox
  {
  }

  /** An ack keeps it conserved exactly when the claim is current, or the id was acked before. */
  lemma AckExact(s: Spool, c: Claim, ever: set<string>)
    requires Conserved(s, ever) && HandedOut(s, c, ever)
    ensures Conserved(Ack(s, c), ever) <==> Current(s, c) || c.message.id in s.sent
  {
    var s' := Ack(s, c);
    if Current(s, c) {
      Removed(s, c.path);
      SameOutbox(s.(outbox := s.outbox - {c.path}), s');
      assert InOutbox(s, c.message.id);
    } else {
      NotCurrentNoFile(s, c);
      SameOutbox(s, s');
    }
  }

  /** A kill keeps it conserved exactly when the claim is current, or the id was dead before. */
  lemma KillExact(s: Spool, c: Claim, ever: set<string>)
    requires Conserved(s, ever) && HandedOut(s, c, ever)
    ensures Conserved(Kill(s, c), ever) <==> Current(s, c) || c.message.id in s.dead
  {
    var s' := Kill(s, c);
    if Current(s, c) {
      Removed(s, c.path);
      SameOutbox(s.(outbox := s.outbox - {c.path}), s');
      assert InOutbox(s, c.message.id);
    } else {
      NotCurrentNoFile(s, c);
      SameOutbox(s, s');
    }
  }

  /** Moving one listed file to the dead letters. */
  lemma BuryConserves(s: Spool, n: FileName, ever: set<string>)
    requires Conserved(s, ever) && n in s.outbox
    ensures Conserved(s.(outbox := s.outbox - {n}, dead := s.dead[s.outbox[n].id := s.outbox[n]]), ever)
  {
    Removed(s, n);
    SameOutbox(s.(outbox := s.outbox - {n}),
               s.(outbox := s.outbox - {n}, dead := s.dead[s.outbox[n].id := s.outbox[n]]));
    assert InOutbox(s, n.id);
  }

  /** Expiry moves exactly the listed stale files, claimed or not, to the dead letters, and keeps the rest. */
  lemma {:induction false} ExpireConserves(s: Spool, names: seq<FileName>, cutoff: int, ever: set<string>)
    requires Conserved(s, ever) && forall n :: n in names ==> n in s.outbox
    requires forall i, j :: 0 <= i < j < |names| ==> names[i] != names[j]
    ensures var s' := Expire(s, names, cutoff);
            && Conserved(s', ever)
            && (forall n :: n in s'.outbox <==> n in s.outbox && !(n in names && n.ts < cutoff))
            && (forall n :: n in s'.outbox ==> s'.outbox[n] == s.outbox[n])
            && (forall n :: n in names && n.ts < cutoff ==> n.id in s'.dead && s'.dead[n.id] == s.outbox[n])
  {
    if names != [] {
      var k := |names| - 1;
      var last := names[k];
      assert last in names && last !in names[..k];
      assert forall n :: n in names <==> n == last || n in names[..k];
      ExpireConserves(s, names[..k], cutoff, ever);
      var s0 := Expire(s, names[..k], cutoff);
      if last.ts < cutoff {
        BuryConserves(s0, last, ever);
        assert s0.outbox[last] == s.outbox[last];
        forall n | n in names[..k] && n.ts < cutoff ensures n.id != last.id {
          assert n in names && n in s.outbox;
        }
      }
    }
  }

  /** A restart turns every abandoned claim back into a waiting message, losing none. */
  lemma {:induction false} ReclaimConserves(s: Spool, names: seq<FileName>, ever: set<string>)
    requires Conserved(s, ever) && forall n :: n in names ==> n in s.outbox
    requires forall i, j :: 0 <= i < j < |names| ==> names[i] != names[j]
    ensures var s' := Reclaim(s, names);
            && Conserved(s', ever)
            && (forall n :: n in s.outbox && n !in names ==> n in s'.outbox && s'.outbox[n] == s.outbox[n])
            && (forall n :: n in names ==> Unclaimed(n) in s'.outbox && s'.outbox[Unclaimed(n)] == s.outbox[n])
            && (forall n :: n in s'.outbox && n.claimed ==> n !in names)
            && s'.sent == s.sent && s'.dead == s.dead
  {
    if names != [] {
      var k := |names| - 1;
      var last := names[k];
      assert last in names && last !in names[..k];
      assert forall n :: n in names <==> n == last || n in names[..k];
      ReclaimConserves(s, names[..k], ever);
      var s0 := Reclaim(s, names[..k]);
      if last.claimed {
        assert s0.outbox[last] == s.outbox[last];
        Renamed(s0, last, Unclaimed(last), s.outbox[last]);
        ReclaimStep(s, s0, names, last);
      }
    }
  }

  /** One more claim turned back leaves the files already handled alone. */
  lemma ReclaimStep(s: Spool, s0: Spool, names: seq<FileName>, last: FileName)
    requires WellNamed(s) && last in s.outbox && last.claimed && last in s0.outbox && WellNamed(s0)
    requires forall n :: n in names ==> n in s.outbox
    ensures var outbox' := (s0.outbox - {last})[Unclaimed(last) := s.outbox[last]];
            && (forall n :: n in s0.outbox && n != last && n.id != last.id ==> n in outbox' && outbox'[n] == s0.outbox[n])
            && (forall n :: n in names && n != last ==> n.id != last.id && Unclaimed(n) != last && Unclaimed(n) != Unclaimed(last))
            && (forall n :: n in outbox' && n.claimed ==> n in s0.outbox && n != last)
  {
  }

  // ---------------------------------------------------------------- runs

  datatype SpoolOp =
    | DoEnqueue(message: Message)
    | DoClaim(name: FileName, now: int)
    | DoRelease(claim: Claim, now: int, error: string)
    | DoAck(claim: Claim)
    | DoKill(claim: Claim)
    | DoExpire(names: seq<FileName>, cutoff: int)
    | DoReclaim(names: seq<FileName>)

  /** Fresh ids, true directories, and a claim settled only while it is current. */
  ghost predicate Legal(s: Spool, ever: set<string>, op: SpoolOp) {
    match op
    case DoEnqueue(m) => m.id !in s.sent && m.id !in s.dead
    case DoClaim(n, now) => IsEarliestClaimable(s, now, Some(n))
    case DoRelease(c, _, _) => HandedOut(s, c, ever) && Current(s, c)
    case DoAck(c) => HandedOut(s, c, ever) && Current(s, c)
    case DoKill(c) => HandedOut(s, c, ever) && Current(s, c)
    case DoExpire(names, _) => IsDirectory(s, names)
    case DoReclaim(names) => IsDirectory(s, names)
  }

  ghost function Apply(s: Spool, ever: set<string>, op: SpoolOp): Spool
    requires Legal(s, ever, op)
  {
    match op
    case DoEnqueue(m) => Enqueue(s, m).0
    case DoClaim(n, _) => TakeClaim(s, n).0
    case DoRelease(c, now, error) => Release(s, c, now, error)
    case DoAck(c) => Ack(s, c)
    case DoKill(c) => Kill(s, c)
    case DoExpire(names, cutoff) => Expire(s, names, cutoff)
    case DoReclaim(names) => Reclaim(s, names)
  }

  function EverAfter(s: Spool, ever: set<string>, op: SpoolOp): set<string> {
    if op.DoEnqueue? && Enqueue(s, op.message).1.Stored? then ever + {op.message.id} else ever
  }

  ghost predicate LegalRun(s: Spool, ever: set<string>, ops: seq<SpoolOp>)
    decreases |ops|
  {
    ops == [] || (Legal(s, ever, ops[0]) && LegalRun(Apply(s, ever, ops[0]), EverAfter(s, ever, ops[0]), ops[1..]))
  }

  ghost function Run(s: Spool, ever: set<string>, ops: seq<SpoolOp>): (Spool, set<string>)
    requires LegalRun(s, ever, ops)
    decreases |ops|
  {
    if ops == [] then (s, ever) else Run(Apply(s, ever, ops[0]), EverAfter(s, ever, ops[0]), ops[1..])
  }

  lemma StepConserves(s: Spool, ever: set<string>, op: SpoolOp)
    requires Conserved(s, ever) && Legal(s, ever, op)
    ensures Conserved(Apply(s, ever, op), EverAfter(s, ever, op))
  {
    match op
    case DoEnqueue(m) => EnqueueConserves(s, m, ever);
    case DoClaim(n, now) => ClaimConserves(s, n, now, ever);
    case DoRelease(c, now, error) =>
      assert InOutbox(s, c.message.id);
      ReleaseExact(s, c, now, error, ever);
    case DoAck(c) => AckExact(s, c, ever);
    case DoKill(c) => KillExact(s, c, ever);
    case DoExpire(names, cutoff) => ExpireConserves(s, names, cutoff, ever);
    case DoReclaim(names) => ReclaimConserves(s, names, ever);
  }

  lemma {:induction false} SmallerOutbox(a: set<FileName>, b: set<FileName>)
    requires a <= b
    ensures |a| <= |b|
  {
    assert b == a + (b - a);
  }

  lemma EnqueueWithinLimit(s: Spool, m: Message)
    requires WithinLimit(s)
    ensures WithinLimit(Enqueue(s, m).0)
  {
    if Enqueue(s, m).1.Stored? {
      var s' := Enqueue(s, m).0;
      assert s'.outbox.Keys == s.outbox.Keys + {WaitingName(m)};
    }
  }

  lemma RemovingWithinLimit(s: Spool, s': Spool)
    requires WithinLimit(s) && s'.outbox.Keys <= s.outbox.Keys
    ensures WithinLimit(s')
  {
    SmallerOutbox(s'.outbox.Keys, s.outbox.Keys);
  }

  /** Only an enqueue adds a file, and it refuses at the limit. */
  lemma StepWithinLimit(s: Spool, ever: set<string>, op: SpoolOp)
    requires Conserved(s, ever) && Legal(s, ever, op) && WithinLimit(s)
    ensures WithinLimit(Apply(s, ever, op))
  {
    match op
    case DoEnqueue(m) => EnqueueWithinLimit(s, m);
    case DoClaim(n, _) => Swapped(s, n, ClaimedName(n), s.outbox[n]);
    case DoRelease(c, now, error) => Swapped(s, c.path, WaitingName(c.message), Failed(c.message, now, error));
    case DoAck(c) => RemovingWithinLimit(s, Ack(s, c));
    case DoKill(c) => RemovingWithinLimit(s, Kill(s, c));
    case DoExpire(names, cutoff) =>
      ExpireConserves(s, names, cutoff, ever);
      RemovingWithinLimit(s, Expire(s, names, cutoff));
    case DoReclaim(names) => ReclaimSize(s, names);
  }

  lemma Swapped(s: Spool, n: FileName, n': FileName, m: Message)
    requires n in s.outbox
    ensures |(s.outbox - {n})[n' := m]| <= |s.outbox|
  {
    var rest := s.outbox.Keys - {n};
    assert |rest| == |s.outbox| - 1;
    assert (s.outbox - {n})[n' := m].Keys == rest + {n'};
  }

  lemma {:induction false} ReclaimSize(s: Spool, names: seq<FileName>)
    requires forall n :: n in names ==> n in s.outbox
    requires forall i, j :: 0 <= i < j < |names| ==> names[i] != names[j]
    ensures |Reclaim(s, names).outbox| <= |s.outbox|
    ensures forall n :: n in s.outbox && n !in names ==> n in Reclaim(s, names).outbox
  {
    if names != [] {
      var k := |names| - 1;
      var last := names[k];
      assert last !in names[..k];
      ReclaimSize(s, names[..k]);
      if last.claimed {
        Swapped(Reclaim(s, names[..k]), last, Unclaimed(last), s.outbox[last]);
      }
    }
  }

  /** Across any such run every spooled id is in exactly one place, and the outbox stays within its limit. */
  lemma {:induction false} RunConserves(s: Spool, ever: set<string>, ops: seq<SpoolOp>)
    requires Conserved(s, ever) && WithinLimit(s) && LegalRun(s, ever, ops)
    ensures var (s', ever') := Run(s, ever, ops);
            Conserved(s', ever') && WithinLimit(s') && ever <= ever'
    decreases |ops|
  {
    if ops != [] {
      StepConserves(s, ever, ops[0]);
      StepWithinLimit(s, ever, ops[0]);
      RunConserves(Apply(s, ever, ops[0]), EverAfter(s, ever, ops[0]), ops[1..]);
    }
  }

  /** However the send went, a flushed claim is settled: sent, dead, or waiting with one more attempt. */
  lemma FlushSettles(s: Spool, c: Claim, outcome: SendOutcome, now: int, ever: set<string>)
    requires Conserved(s, ever) && HandedOut(s, c, ever) && Current(s, c)
    ensures var s' := Settle(s, c, outcome, now);
            && Conserved(s', ever)
            && (forall n :: n in s'.outbox && n.id == c.message.id ==> !n.claimed)
            && (c.message.id in s'.sent <==> outcome == Answered(""))
            && (c.message.id in s'.dead <==> outcome.Answered? && PermanentSendNak(outcome.code))
            && (WaitingName(c.message) in s'.outbox <==> c.message.id !in s'.sent && c.message.id !in s'.dead)
            && (WaitingName(c.message) in s'.outbox ==>
                  s'.outbox[WaitingName(c.message)] == Failed(c.message, now, ReleaseReason(outcome)))
  {
    assert InOutbox(s, c.message.id);
    ReleaseExact(s, c, now, ReleaseReason(outcome), ever);
    AckExact(s, c, ever);
    KillExact(s, c, ever);
  }

  /** A failed message waits 1 s, 2 s, 4 s, ... and never more than 30 s. */
  lemma WaitShape(attempts: nat)
    ensures attempts <= 1 ==> Wait(attempts) == SECOND_NS
    ensures 1 <= attempts <= 5 ==> Wait(attempts) == SECOND_NS * Pow2(attempts - 1)
    ensures attempts >= 6 ==> Wait(attempts) == MAX_WAIT_NS
  {
    assert Pow2(0) == 1 && Pow2(1) == 2 && Pow2(2) == 4 && Pow2(3) == 8 && Pow2(4) == 16 && Pow2(5) == 32;
  }
}
