/** The ledger of one room as the object that keeps it (src/do/room.ts). */
module Room {
  import opened Common
  import opened RoomModel
  import Storage

  class Room {
    const org: string
    const policy: Policy
    var sequence: nat
    var messages: map<nat, Entry>
    var ids: map<string, nat>
    var members: map<string, Member>

    function State(): RoomState
      reads this
    {
      RoomState(sequence, messages, ids, members)
    }

    constructor (org: string, policy: Policy)
      ensures this.org == org && this.policy == policy && State() == EMPTY
    {
      this.org, this.policy := org, policy;
      sequence, messages, ids, members := 0, map[], map[], map[];
    }

    method Join(address: string, source: Source, memberOrg: string, connectionValid: bool, now: int) returns (result: JoinResult)
      modifies this`members
      ensures (State(), result) == RoomModel.Join(old(State()), address, JoinCheck(policy, source, memberOrg, connectionValid), now)
    {
      if policy == Invite && source == ByAgent {
        return InviteOnly;
      }
      if !connectionValid {
        return NotConnected;
      }
      if address in members {
        return AlreadyMember;
      }
      if |members| >= MAX_ROOM_MEMBERS {
        return RoomFull;
      }
      members := members[address := Member(address, memberOrg, now, 0)];
      return Joined;
    }

    method Leave(address: string) returns (left: bool)
      modifies this`members
      ensures (State(), left) == RoomModel.Leave(old(State()), address)
    {
      left := address in members;
      members := members - {address};
    }

    method Post(input: PostInput, now: int) returns (answer: Result<Posted, PostError>)
      modifies this`sequence, this`messages, this`ids
      ensures (State(), answer) == RoomModel.Post(old(State()), org, input, now)
    {
      if input.bodyTooLarge {
        return Err(BodyTooLarge);
      }
      if input.from != OPERATOR {
        if input.from !in members {
          return Err(NotMember);
        }
        if members[input.from].org != org && !input.senderConnected {
          return Err(NotMember);
        }
      }
      if input.id in ids && ids[input.id] in messages {
        return Ok(Posted(messages[ids[input.id]], true));
      }
      sequence := sequence + 1;
      var entry := Entry(input.id, sequence, input.from, input.body, input.replyTo, now);
      messages := messages[sequence := entry];
      ids := ids[input.id := sequence];
      return Ok(Posted(entry, false));
    }

    method Acknowledge(address: string, n: nat)
      modifies this`members
      ensures State() == RoomModel.Acknowledge(old(State()), address, n)
    {
      if address !in members {
        return;
      }
      var member := members[address];
      if n <= member.lastAcked {
        return;
      }
      members := members[address := member.(lastAcked := n)];
    }

    /** The first batch of the ledger in key order. */
    method Oldest() returns (listing: seq<nat>)
      ensures IsOldest(State(), listing)
    {
      listing := Storage.List(messages.Keys, (a: nat, b: nat) => a < b);
      if |listing| > PRUNE_BATCH {
        ghost var stored := listing;
        listing := listing[..PRUNE_BATCH];
        assert forall j :: 0 <= j < PRUNE_BATCH ==> stored[j] in listing;
        forall n | n in messages && n !in listing ensures forall k :: k in listing ==> k < n {
          var i :| 0 <= i < |stored| && stored[i] == n;
          assert PRUNE_BATCH <= i;
        }
      }
    }

    /** Sweeps the oldest stored messages, deleting the expired among them with their index keys. */
    method PruneLedger(now: int) returns (listing: seq<nat>)
      modifies this`messages, this`ids
      ensures IsOldest(old(State()), listing)
      ensures State() == RoomModel.Prune(old(State()), listing, now)
    {
      listing := Oldest();
      var cutoff := now - ROOM_RETENTION_MS;
      var expired: set<nat>, expiredIds: set<string> := {}, {};
      for i := 0 to |listing|
        invariant forall n :: n in expired <==> n in listing[..i] && ExpiredAt(messages[n], now)
        invariant forall id :: id in expiredIds <==> exists n :: n in expired && messages[n].id == id
      {
        assert listing[i] in listing;
        assert forall n :: n in listing[..i + 1] <==> n in listing[..i] || n == listing[i];
        if messages[listing[i]].createdAt < cutoff {
          expired := expired + {listing[i]};
          expiredIds := expiredIds + {messages[listing[i]].id};
        }
      }
      assert listing[..|listing|] == listing;
      assert expired == Doomed(State(), listing, now);
      assert expiredIds == set n | n in expired && n in messages :: messages[n].id;
      messages := messages - expired;
      ids := ids - expiredIds;
    }
  }
}
