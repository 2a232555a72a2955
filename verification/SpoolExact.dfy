/**
 What spooling, claiming and settling come to, told by the stored fields
 (daemon/spool.go, daemon/client.go).
 */
module SpoolExact {
  import opened Common
  import opened SpoolModel

  lemma EnqueueExact(s: Spool, m: Message)
    ensures var (s', result) := Enqueue(s, m);
            var known := exists n :: n in s.outbox && n.id == m.id;
            && (result == Incomplete <==> m.from == "" || m.to == "" || m.body == "")
            && (result == AlreadySpooled <==> m.from != "" && m.to != "" && m.body != "" && known)
            && (result == Full <==> m.from != "" && m.to != "" && m.body != "" && !known && |s.outbox| >= 10_000)
            && (result != Stored ==> s' == s)
            && (result == Stored ==> s' == s.(outbox := s.outbox[FileName(claimed := false, ts := m.ts, id := m.id) := m]))
  {
  }

  /** A message may be claimed when its wait is over: one second after the first failure, doubling, thirty at most. */
  lemma ClaimableExact(s: Spool, n: FileName, now: int)
    ensures Claimable(s, n, now) <==>
            && n in s.outbox && !n.claimed
            && (s.outbox[n].lastAttempt.None? || s.outbox[n].lastAttempt.value + Wait(s.outbox[n].attempts) <= now)
  {
  }

  /** What is claimed is the earliest of what may be, by its time and then by its id as a file name. */
  lemma ClaimedFirst(s: Spool, now: int, n: FileName)
    requires IsEarliestClaimable(s, now, Some(n))
    ensures Claimable(s, n, now)
    ensures forall other :: Claimable(s, other, now) && other != n ==>
              n.ts < other.ts || (n.ts == other.ts && Before(CodeUnits(n.id + ".json"), CodeUnits(other.id + ".json")))
  {
  }

  lemma WaitExact(attempts: nat)
    ensures attempts <= 1 ==> Wait(attempts) == 1_000_000_000
    ensures attempts >= 1 ==> Wait(attempts + 1) == if 2 * Wait(attempts) <= 30_000_000_000 then 2 * Wait(attempts) else 30_000_000_000
  {
    if attempts == 1 { assert Pow2(1) == 2; }
    if attempts == 2 { assert Pow2(2) == 4 && Pow2(1) == 2; }
    if attempts == 3 { assert Pow2(3) == 8 && Pow2(2) == 4 && Pow2(1) == 2; }
    if attempts == 4 { assert Pow2(4) == 16 && Pow2(3) == 8 && Pow2(2) == 4 && Pow2(1) == 2; }
    if attempts >= 5 { assert Pow2(5) == 32 && Pow2(4) == 16 && Pow2(3) == 8 && Pow2(2) == 4 && Pow2(1) == 2; }
  }

  lemma TakenExact(s: Spool, n: FileName)
    requires n in s.outbox
    ensures var (s', c) := TakeClaim(s, n);
            && c.message == s.outbox[n] && c.path == FileName(claimed := true, ts := n.ts, id := n.id)
            && s'.outbox == (s.outbox - {n})[c.path := s.outbox[n]] && s'.sent == s.sent && s'.dead == s.dead
  {
  }

  /** A released message is the one claimed with one more failed attempt, waiting under its own name. */
  lemma ReleaseFields(s: Spool, c: Claim, now: int, error: string)
    ensures var s' := Release(s, c, now, error);
            var name := FileName(claimed := false, ts := c.message.ts, id := c.message.id);
            && s'.sent == s.sent && s'.dead == s.dead && name in s'.outbox
            && s'.outbox == (s.outbox - {c.path})[name := s'.outbox[name]]
            && var m := s'.outbox[name];
               && m.id == c.message.id && m.from == c.message.from && m.to == c.message.to && m.body == c.message.body
               && m.replyTo == c.message.replyTo && m.ts == c.message.ts
               && m.attempts == c.message.attempts + 1 && m.lastAttempt == Some(now) && m.lastError == error
  {
  }

  /** An ack retires the message as sent, a permanent refusal as dead; anything else releases it with the reason. */
  lemma SettleExact(s: Spool, c: Claim, outcome: SendOutcome, now: int)
    ensures var s' := Settle(s, c, outcome, now);
            if outcome.Answered? && outcome.code == "" then s' == Spool(s.outbox - {c.path}, s.sent + {c.message.id}, s.dead)
            else if outcome.Answered? && outcome.code in {"no_route", "not_member", "body_too_large", "reserved_name"}
            then s' == Spool(s.outbox - {c.path}, s.sent, s.dead[c.message.id := c.message])
            else
              s' == Release(s, c, now,
                match outcome
                case Offline => "offline"
                case TimedOut => "send ack timeout"
                case Answered(code) => code
                case WriteFailed(error) => error
                case Failure(error) => error
                case Cancelled(error) => error)
  {
  }

  /** Expiry buries exactly the listed files spooled before the cutoff, and reports them. */
  lemma {:induction false} ExpireExact(s: Spool, names: seq<FileName>, cutoff: int)
    requires (forall n :: n in names ==> n in s.outbox) && WellNamed(s)
    ensures var s' := Expire(s, names, cutoff);
            && s'.sent == s.sent
            && (forall n :: n in s'.outbox <==> n in s.outbox && !(n in names && s.outbox[n].ts < cutoff))
            && (forall n :: n in s'.outbox ==> s'.outbox[n] == s.outbox[n])
            && (forall n :: n in names && s.outbox[n].ts < cutoff ==> n.id in s'.dead && s'.dead[n.id] == s.outbox[n])
    ensures forall m :: m in Reaped(s, names, cutoff) <==> exists n :: n in names && s.outbox[n] == m && m.ts < cutoff
  {
    if names != [] {
      var k := |names| - 1;
      var last := names[k];
      assert last in names;
      assert forall n :: n in names <==> n in names[..k] || n == last;
      ExpireExact(s, names[..k], cutoff);
    }
  }
}
