/** The outbox spool as the store that keeps its directories (daemon/spool.go), and its driver (daemon/client.go). */
module Spool {
  import opened Common
  import opened SpoolModel
  import Storage

  lemma SuffixedDistinct(a: string, b: string)
    requires CodeUnits(a + ".json") == CodeUnits(b + ".json")
    ensures a == b
  {
    assert |CodeUnits(a + ".json")| == |a| + 5 && |CodeUnits(b + ".json")| == |b| + 5;
    forall i | 0 <= i < |a| ensures a[i] == b[i] {
      assert CodeUnits(a + ".json")[i] == (a + ".json")[i] as nat == a[i] as nat;
      assert CodeUnits(b + ".json")[i] == (b + ".json")[i] as nat == b[i] as nat;
    }
  }

  lemma NameTransitive(a: FileName, b: FileName, c: FileName)
    requires NameBefore(a, b) && NameBefore(b, c)
    ensures NameBefore(a, c)
  {
    if a.claimed == b.claimed == c.claimed && a.ts == b.ts == c.ts {
      BeforeTransitive(CodeUnits(a.id + ".json"), CodeUnits(b.id + ".json"), CodeUnits(c.id + ".json"));
    }
  }

  lemma NamesOrdered(names: set<FileName>)
    ensures Storage.TotalOn(names, NameBefore)
  {
    forall a, b | a in names && b in names && a != b
      ensures (NameBefore(a, b) || NameBefore(b, a)) && !(NameBefore(a, b) && NameBefore(b, a))
    {
      BeforeTotal(CodeUnits(a.id + ".json"), CodeUnits(b.id + ".json"));
      if CodeUnits(a.id + ".json") == CodeUnits(b.id + ".json") {
        SuffixedDistinct(a.id, b.id);
      }
    }
    forall a, b, c | a in names && b in names && c in names && NameBefore(a, b) && NameBefore(b, c) ensures NameBefore(a, c) {
      NameTransitive(a, b, c);
    }
  }

  lemma ExpireSnoc(s: SpoolModel.Spool, names: seq<FileName>, cutoff: int, i: nat)
    requires i < |names| && forall n :: n in names ==> n in s.outbox
    ensures names[..i + 1][..i] == names[..i] && names[..i + 1][i] == names[i]
    ensures var s0 := Expire(s, names[..i], cutoff);
            Expire(s, names[..i + 1], cutoff) ==
            if s.outbox[names[i]].ts >= cutoff then s0
            else s0.(outbox := s0.outbox - {names[i]}, dead := s0.dead[s.outbox[names[i]].id := s.outbox[names[i]]])
  {
    assert names[..i + 1][..i] == names[..i];
  }

  lemma ReclaimSnoc(s: SpoolModel.Spool, names: seq<FileName>, i: nat)
    requires i < |names| && forall n :: n in names ==> n in s.outbox
    ensures var s0 := Reclaim(s, names[..i]);
            Reclaim(s, names[..i + 1]) ==
            if !names[i].claimed then s0
            else s0.(outbox := (s0.outbox - {names[i]})[Unclaimed(names[i]) := s.outbox[names[i]]])
  {
    assert names[..i + 1][..i] == names[..i];
  }

  class Store {
    var outbox: map<FileName, Message>
    var history: set<string>
    var dead: map<string, Message>

    function State(): SpoolModel.Spool
      reads this
    {
      SpoolModel.Spool(outbox, history, dead)
    }

    constructor ()
      ensures State() == SpoolModel.EMPTY
    {
      outbox, history, dead := map[], {}, map[];
    }

    method Names() returns (names: seq<FileName>)
      ensures IsDirectory(State(), names)
    {
      NamesOrdered(outbox.Keys);
      names := Storage.List(outbox.Keys, NameBefore);
    }

    method Enqueue(message: Message) returns (result: EnqueueResult)
      modifies this`outbox
      ensures (State(), result) == SpoolModel.Enqueue(old(State()), message)
    {
      if message.from == "" || message.to == "" || message.body == "" {
        return Incomplete;
      }
      var names := Names();
      for i := 0 to |names|
        invariant forall j :: 0 <= j < i ==> names[j].id != message.id
      {
        assert names[i] in names;
        if names[i].id == message.id {
          return AlreadySpooled;
        }
      }
      assert !InOutbox(State(), message.id) by {
        forall n | n in outbox ensures n.id != message.id {
          assert n in names;
        }
      }
      NamesCount(names);
      if |names| >= OUTBOX_LIMIT {
        return Full;
      }
      outbox := outbox[WaitingName(message) := message];
      return Stored;
    }

    lemma NamesCount(names: seq<FileName>)
      requires IsDirectory(State(), names)
      ensures |names| == |outbox|
    {
      Distinct(names);
      assert (set n | n in names) == outbox.Keys;
    }

    /** Takes the earliest message that is not waiting out a retry. */
    method Claim(now: int) returns (claim: Option<SpoolModel.Claim>)
      modifies this`outbox
      ensures claim.None? ==> State() == old(State()) && IsEarliestClaimable(old(State()), now, None)
      ensures claim.Some? ==>
                var name := Unclaimed(claim.value.path);
                && IsEarliestClaimable(old(State()), now, Some(name))
                && (State(), claim.value) == TakeClaim(old(State()), name)
    {
      var names := Names();
      for i := 0 to |names|
        invariant forall j :: 0 <= j < i ==> !Claimable(State(), names[j], now)
      {
        var name := names[i];
        assert name in names;
        if !name.claimed && Eligible(outbox[name], now) {
          forall n | Claimable(State(), n, now) && n != name ensures NameBefore(name, n) {
            assert n in names;
            var j :| 0 <= j < |names| && names[j] == n;
            assert i < j;
          }
          assert Unclaimed(ClaimedName(name)) == name;
          var message := outbox[name];
          outbox := (outbox - {name})[ClaimedName(name) := message];
          return Some(SpoolModel.Claim(message, ClaimedName(name)));
        }
      }
      forall n ensures !Claimable(State(), n, now) {
        assert n in outbox ==> n in names;
      }
      return None;
    }

    method Release(claim: SpoolModel.Claim, now: int, error: string)
      modifies this`outbox
      ensures State() == SpoolModel.Release(old(State()), claim, now, error)
    {
      var message := claim.message.(attempts := claim.message.attempts + 1, lastAttempt := Some(now), lastError := error);
      outbox := outbox[claim.path := message];
      outbox := (outbox - {claim.path})[WaitingName(message) := message];
      assert outbox == (old(outbox) - {claim.path})[WaitingName(message) := message];
    }

    method Ack(claim: SpoolModel.Claim)
      modifies this`outbox, this`history
      ensures State() == SpoolModel.Ack(old(State()), claim)
    {
      outbox := outbox - {claim.path};
      history := history + {claim.message.id};
    }

    method Kill(claim: SpoolModel.Claim)
      modifies this`outbox, this`dead
      ensures State() == SpoolModel.Kill(old(State()), claim)
    {
      outbox := outbox - {claim.path};
      dead := dead[claim.message.id := claim.message];
    }

    method Expire(cutoff: int) returns (names: seq<FileName>, reaped: seq<Message>)
      modifies this`outbox, this`dead
      ensures IsDirectory(old(State()), names)
      ensures State() == SpoolModel.Expire(old(State()), names, cutoff)
      ensures reaped == Reaped(old(State()), names, cutoff)
    {
      ghost var s := State();
      names := Names();
      var listed := outbox;
      reaped := [];
      for i := 0 to |names|
        invariant State() == SpoolModel.Expire(s, names[..i], cutoff)
        invariant reaped == Reaped(s, names[..i], cutoff)
      {
        assert names[i] in names;
        ExpireSnoc(s, names, cutoff, i);
        var message := listed[names[i]];
        if message.ts < cutoff {
          dead := dead[message.id := message];
          outbox := outbox - {names[i]};
          reaped := reaped + [message];
        }
      }
      assert names[..|names|] == names;
    }

    method ReclaimOrphans() returns (names: seq<FileName>)
      modifies this`outbox
      ensures IsDirectory(old(State()), names)
      ensures State() == SpoolModel.Reclaim(old(State()), names)
    {
      ghost var s := State();
      names := Names();
      var listed := outbox;
      for i := 0 to |names|
        invariant State() == SpoolModel.Reclaim(s, names[..i])
      {
        assert names[i] in names;
        ReclaimSnoc(s, names, i);
        if names[i].claimed {
          outbox := (outbox - {names[i]})[Unclaimed(names[i]) := listed[names[i]]];
        }
      }
      assert names[..|names|] == names;
    }

    // -------------------------------------------------------------- the driver

    /** Claims one message, sends it, and settles the claim by what came of that. */
    method FlushOne(now: int, outcome: SendOutcome, settledAt: int) returns (claim: Option<SpoolModel.Claim>, worked: bool)
      modifies this
      ensures claim.None? ==> State() == old(State()) && IsEarliestClaimable(old(State()), now, None) && !worked
      ensures claim.Some? ==>
                var name := Unclaimed(claim.value.path);
                && IsEarliestClaimable(old(State()), now, Some(name))
                && claim.value == TakeClaim(old(State()), name).1
                && State() == Settle(TakeClaim(old(State()), name).0, claim.value, outcome, settledAt)
                && (worked <==> !outcome.Offline? && !outcome.WriteFailed? && !outcome.Cancelled?)
    {
      claim := Claim(now);
      if claim.None? {
        return None, false;
      }
      match outcome {
        case Offline =>
          Release(claim.value, settledAt, "offline");
          worked := false;
        case WriteFailed(error) =>
          Release(claim.value, settledAt, error);
          worked := false;
        case Failure(error) =>
          Release(claim.value, settledAt, error);
          worked := true;
        case Answered(code) =>
          if code == "" {
            Ack(claim.value);
          } else if PermanentSendNak(code) {
            Kill(claim.value);
          } else {
            Release(claim.value, settledAt, code);
          }
          worked := true;
        case TimedOut =>
          Release(claim.value, settledAt, "send ack timeout");
          worked := true;
        case Cancelled(error) =>
          Release(claim.value, settledAt, error);
          worked := false;
      }
    }

    /** Retires what outlived the outbox's time to live. */
    method ReapExpired(now: int) returns (names: seq<FileName>, reaped: seq<Message>)
      modifies this`outbox, this`dead
      ensures IsDirectory(old(State()), names)
      ensures State() == SpoolModel.Expire(old(State()), names, now - OUTBOX_TTL_NS)
      ensures reaped == Reaped(old(State()), names, now - OUTBOX_TTL_NS)
    {
      names, reaped := Expire(now - OUTBOX_TTL_NS);
    }
  }

  lemma {:induction false} Distinct(names: seq<FileName>)
    requires forall i, j :: 0 <= i < j < |names| ==> names[i] != names[j]
    ensures |set n | n in names| == |names|
  {
    if names != [] {
      var k := |names| - 1;
      Distinct(names[..k]);
      assert names == names[..k] + [names[k]];
      assert (set n | n in names) == (set n | n in names[..k]) + {names[k]};
    }
  }
}
