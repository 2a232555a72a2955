/**
 A refusal the hub has stored and the daemon retries: one message between the outbox
 spool (daemon/spool.go, daemon/client.go) and its sender's hub (src/do/host-hub.ts).

 `rate_limited` and `plan_limit` are not permanent for the daemon, so it keeps the
 message and retries; but the hub stores the refusal and gives it again.
 */
module RefusedMail {
  import opened Common
  import SendPath
  import opened SpoolModel

  datatype Mail = Mail(world: SendPath.World, spool: Spool, ever: set<string>)

  datatype Event =
    | Flush(name: FileName, checks: SendPath.Checks, now: int, settledAt: int)  // the message is claimed, sent and settled
    | AtHub(event: SendPath.Event)                                              // anything at the sender's or the target's hub
    | AtSpool(op: SpoolOp)                                                      // anything else in the outbox

  /** Only an answer acks or kills the message, and answers come with a flush. */
  ghost predicate Allowed(m: Mail, id: string, e: Event) {
    match e
    case Flush(name, _, now, _) => name.id == id && IsEarliestClaimable(m.spool, now, Some(name))
    case AtHub(event) => SendPath.Allowed(m.world, event)
    case AtSpool(op) =>
      && Legal(m.spool, m.ever, op)
      && (op.DoAck? || op.DoKill? ==> op.claim.message.id != id)
  }

  ghost function Next(m: Mail, id: string, target: SendPath.Target, e: Event): Mail
    requires Allowed(m, id, e)
  {
    match e
    case Flush(name, checks, now, settledAt) =>
      var (spool, claim) := TakeClaim(m.spool, name);
      var (world, answer) := SendPath.Attempt(m.world, id, target, checks, now, SendPath.Completes);
      m.(world := world, spool := SendPath.Flush(spool, claim, answer.value, settledAt))
    case AtHub(event) => m.(world := SendPath.Happens(m.world, id, target, event))
    case AtSpool(op) => m.(spool := Apply(m.spool, m.ever, op), ever := EverAfter(m.spool, m.ever, op))
  }

  ghost predicate AllowedRun(m: Mail, id: string, target: SendPath.Target, events: seq<Event>)
    decreases |events|
  {
    events == [] || (Allowed(m, id, events[0]) && AllowedRun(Next(m, id, target, events[0]), id, target, events[1..]))
  }

  ghost function Run(m: Mail, id: string, target: SendPath.Target, events: seq<Event>): Mail
    requires AllowedRun(m, id, target, events)
    decreases |events|
  {
    if events == [] then m else Run(Next(m, id, target, events[0]), id, target, events[1..])
  }

  predicate ExpiresBy(e: Event, ts: int) {
    e.AtSpool? && e.op.DoExpire? && ts < e.op.cutoff
  }

  /** Whether the run holds an expiry the message is too old for. */
  predicate Expires(events: seq<Event>, ts: int) {
    events != [] && (ExpiresBy(events[0], ts) || Expires(events[1..], ts))
  }

  /** The message is in the outbox, waiting or claimed, under the time it was spooled. */
  ghost predicate Waits(s: Spool, id: string, ts: int) {
    exists n :: n in s.outbox && n.id == id && n.ts == ts
  }

  ghost predicate Refused(m: Mail, id: string) {
    && Conserved(m.spool, m.ever)
    && id in m.world.sends && m.world.sends[id].Nacked? && m.world.sends[id].code in {"rate_limited", "plan_limit"}
  }

  lemma WaitsInOutbox(s: Spool, id: string, ts: int)
    requires WellNamed(s) && Waits(s, id, ts)
    ensures InOutbox(s, id) && forall n :: n in s.outbox && n.id == id ==> n.ts == ts
  {
  }

  /** A stored refusal answers the flush, and the claim goes back to the outbox. */
  lemma FlushKeepsWaiting(m: Mail, id: string, target: SendPath.Target, e: Event, ts: int)
    requires Refused(m, id) && Waits(m.spool, id, ts) && e.Flush? && Allowed(m, id, e)
    ensures var m' := Next(m, id, target, e); Refused(m', id) && Waits(m'.spool, id, ts)
  {
    var (s1, c) := TakeClaim(m.spool, e.name);
    ClaimConserves(m.spool, e.name, e.now, m.ever);
    WaitsInOutbox(m.spool, id, ts);
    FlushSettles(s1, c, Answered(m.world.sends[id].code), e.settledAt, m.ever);
    assert WaitingName(c.message) in Next(m, id, target, e).spool.outbox;
  }

  lemma SpoolKeepsWaiting(s: Spool, ever: set<string>, op: SpoolOp, id: string, ts: int)
    requires Conserved(s, ever) && Legal(s, ever, op) && Waits(s, id, ts)
    requires op.DoAck? || op.DoKill? ==> op.claim.message.id != id
    requires op.DoExpire? ==> op.cutoff <= ts
    ensures Waits(Apply(s, ever, op), id, ts)
  {
    var n :| n in s.outbox && n.id == id && n.ts == ts;
    var s' := Apply(s, ever, op);
    match op
    case DoEnqueue(m) => assert n in s'.outbox;
    case DoClaim(name, _) => assert (if name == n then ClaimedName(n) else n) in s'.outbox;
    case DoRelease(c, now, error) => assert (if c.path == n then WaitingName(Failed(c.message, now, error)) else n) in s'.outbox;
    case DoAck(c) => assert n in s'.outbox;
    case DoKill(c) => assert n in s'.outbox;
    case DoExpire(names, cutoff) =>
      ExpireConserves(s, names, cutoff, ever);
      assert n in s'.outbox;
    case DoReclaim(names) =>
      ReclaimConserves(s, names, ever);
      assert n in names && Unclaimed(n) in s'.outbox;
  }

  lemma ExpiryBuries(s: Spool, ever: set<string>, op: SpoolOp, id: string, ts: int)
    requires Conserved(s, ever) && Legal(s, ever, op) && Waits(s, id, ts) && op.DoExpire? && ts < op.cutoff
    ensures id in Apply(s, ever, op).dead
  {
    var n :| n in s.outbox && n.id == id && n.ts == ts;
    ExpireConserves(s, op.names, op.cutoff, ever);
    assert n in op.names;
  }

  /** Dead letters stay dead. */
  lemma DeadStays(s: Spool, ever: set<string>, op: SpoolOp, id: string)
    requires Conserved(s, ever) && Legal(s, ever, op) && id in s.dead
    ensures id in Apply(s, ever, op).dead
  {
    match op
    case DoExpire(names, cutoff) => ExpireKeepsDead(s, names, cutoff, id);
    case DoReclaim(names) => ReclaimConserves(s, names, ever);
    case _ =>
  }

  lemma {:induction false} ExpireKeepsDead(s: Spool, names: seq<FileName>, cutoff: int, id: string)
    requires (forall n :: n in names ==> n in s.outbox) && id in s.dead
    ensures id in Expire(s, names, cutoff).dead
  {
    if names != [] {
      ExpireKeepsDead(s, names[..|names| - 1], cutoff, id);
    }
  }

  lemma DeadIsGone(s: Spool, ever: set<string>, id: string, ts: int)
    requires Conserved(s, ever) && id in s.dead
    ensures !Waits(s, id, ts) && id !in s.sent && !InOutbox(s, id)
  {
    if Waits(s, id, ts) {
      WaitsInOutbox(s, id, ts);
    }
  }

  lemma StepRefused(m: Mail, id: string, target: SendPath.Target, e: Event)
    requires Refused(m, id) && Allowed(m, id, e) && !e.Flush?
    ensures Refused(Next(m, id, target, e), id)
    ensures e.AtHub? ==> Next(m, id, target, e).spool == m.spool
  {
    if e.AtSpool? {
      StepConserves(m.spool, m.ever, e.op);
    }
  }

  lemma {:induction false} BuriedStays(m: Mail, id: string, target: SendPath.Target, events: seq<Event>)
    requires Refused(m, id) && id in m.spool.dead && AllowedRun(m, id, target, events)
    ensures var m' := Run(m, id, target, events); Conserved(m'.spool, m'.ever) && id in m'.spool.dead
    decreases |events|
  {
    if events != [] {
      var e := events[0];
      NeverClaimed(m, id, e);
      StepRefused(m, id, target, e);
      if e.AtSpool? {
        DeadStays(m.spool, m.ever, e.op, id);
      }
      BuriedStays(Next(m, id, target, e), id, target, events[1..]);
    }
  }

  lemma NeverClaimed(m: Mail, id: string, e: Event)
    requires Refused(m, id) && id in m.spool.dead && Allowed(m, id, e)
    ensures !e.Flush?
  {
    DeadIsGone(m.spool, m.ever, id, 0);
    assert e.Flush? ==> InOutbox(m.spool, id);
  }

  /**
   From a stored refusal on, over any run of flushes, expiries and whatever else
   happens at the hubs and in the outbox, the message is never sent: it stays in the
   outbox exactly until an expiry it is too old for, and then it is a dead letter.
   */
  lemma {:induction false} LeavesOnlyByExpiry(m: Mail, id: string, target: SendPath.Target, events: seq<Event>, ts: int)
    requires Refused(m, id) && Waits(m.spool, id, ts) && AllowedRun(m, id, target, events)
    ensures var s' := Run(m, id, target, events).spool;
            && id !in s'.sent
            && (Waits(s', id, ts) <==> !Expires(events, ts))
            && (id in s'.dead <==> Expires(events, ts))
    decreases |events|
  {
    if events == [] {
      WaitsInOutbox(m.spool, id, ts);
    } else {
      var e := events[0];
      var m' := Next(m, id, target, e);
      if e.Flush? {
        FlushKeepsWaiting(m, id, target, e, ts);
      } else {
        StepRefused(m, id, target, e);
      }
      if ExpiresBy(e, ts) {
        ExpiryBuries(m.spool, m.ever, e.op, id, ts);
        BuriedStays(m', id, target, events[1..]);
        var end := Run(m', id, target, events[1..]);
        DeadIsGone(end.spool, end.ever, id, ts);
      } else {
        if e.AtSpool? {
          SpoolKeepsWaiting(m.spool, m.ever, e.op, id, ts);
        }
        LeavesOnlyByExpiry(m', id, target, events[1..], ts);
      }
    }
  }
}
