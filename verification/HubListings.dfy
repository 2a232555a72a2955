/**
 How the hub's loops over storage listings relate to what they compute: the order
 of the listings, and the effect of visiting one more key.
 */
module HubListings {
  import opened Common
  import opened HubModel
  import HubDispatch
  import Storage

  /** The markers of one message are listed in a definite order. */
  lemma MarkersOrdered(keys: set<MarkerKey>, id: string)
    requires forall m :: m in keys ==> m.id == id
    ensures Storage.TotalOn(keys, ListedBefore)
  {
    forall a, b | a in keys && b in keys && a != b
      ensures (ListedBefore(a, b) || ListedBefore(b, a)) && !(ListedBefore(a, b) && ListedBefore(b, a))
    {
      BeforeTotal(CodeUnits(a.agent), CodeUnits(b.agent));
      if CodeUnits(a.agent) == CodeUnits(b.agent) {
        Storage.CodeUnitsDistinguish(a.agent, b.agent);
      }
    }
    forall a, b, c | a in keys && b in keys && c in keys && ListedBefore(a, b) && ListedBefore(b, c)
      ensures ListedBefore(a, c)
    {
      BeforeTransitive(CodeUnits(a.agent), CodeUnits(b.agent), CodeUnits(c.agent));
    }
  }

  lemma AgentsOrdered(a: string, b: string)
    requires a != b
    ensures Before(CodeUnits(a + ":"), CodeUnits(b + ":")) <==> !Before(CodeUnits(b + ":"), CodeUnits(a + ":"))
  {
    BeforeTotal(CodeUnits(a + ":"), CodeUnits(b + ":"));
    assert (a + ":")[..|a|] == a && (b + ":")[..|b|] == b;
    assert |CodeUnits(a + ":")| == |a| + 1 && |CodeUnits(b + ":")| == |b| + 1;
    if CodeUnits(a + ":") == CodeUnits(b + ":") {
      Storage.CodeUnitsDistinguish(a + ":", b + ":");
    }
  }

  lemma StoredTransitive(a: QueueKey, b: QueueKey, c: QueueKey)
    requires HubDispatch.StoredBefore(a, b) && HubDispatch.StoredBefore(b, c)
    ensures HubDispatch.StoredBefore(a, c)
  {
    if a.agent != b.agent && b.agent != c.agent {
      BeforeTransitive(CodeUnits(a.agent + ":"), CodeUnits(b.agent + ":"), CodeUnits(c.agent + ":"));
      BeforeTotal(CodeUnits(a.agent + ":"), CodeUnits(c.agent + ":"));
    }
  }

  /** Queue entries are listed by recipient, then by number. */
  lemma EntriesOrdered(keys: set<QueueKey>)
    ensures Storage.TotalOn(keys, HubDispatch.StoredBefore)
  {
    forall a, b | a in keys && b in keys && a != b
      ensures (HubDispatch.StoredBefore(a, b) || HubDispatch.StoredBefore(b, a))
      ensures !(HubDispatch.StoredBefore(a, b) && HubDispatch.StoredBefore(b, a))
    {
      if a.agent != b.agent {
        AgentsOrdered(a.agent, b.agent);
      }
    }
    forall a, b, c | a in keys && b in keys && c in keys && HubDispatch.StoredBefore(a, b) && HubDispatch.StoredBefore(b, c)
      ensures HubDispatch.StoredBefore(a, c)
    {
      StoredTransitive(a, b, c);
    }
  }

  lemma CollatesTotal(a: MarkerKey, b: MarkerKey)
    requires a != b && a.id == b.id
    ensures CollatesBefore(a, b) || CollatesBefore(b, a)
  {
    BeforeTotal(Collated(a.agent + ":"), Collated(b.agent + ":"));
    if Collated(a.agent + ":") == Collated(b.agent + ":") {
      CollationDistinguishes(a.agent, b.agent);
    }
  }

  /** What sorts before the least so far sorts before everything it sorted before. */
  lemma CollatesFirst(m: MarkerKey, first: MarkerKey, seen: seq<MarkerKey>)
    requires CollatesBefore(m, first)
    ensures forall k :: k in seen && CollatesBefore(first, k) ==> CollatesBefore(m, k)
  {
    forall k | k in seen && CollatesBefore(first, k) ensures CollatesBefore(m, k) {
      BeforeTransitive(Collated(m.agent + ":"), Collated(first.agent + ":"), Collated(k.agent + ":"));
    }
  }

  // ---------------------------------------------------------------- one more key

  function CancelledOf(s: HubState, seen: seq<MarkerKey>): set<MarkerKey> {
    set m | m in seen && IsQueued(s, m)
  }

  /** The loop of `cancelDelivery` over a listing taken before it starts. */
  function CancelListed(s: HubState, listing: seq<MarkerKey>): HubState {
    if listing == [] then s
    else
      var n := |listing| - 1;
      var s0 := CancelListed(s, listing[..n]);
      if IsQueued(s, listing[n])
      then s0.(queue := s0.queue - {s.markers[listing[n]].key}, markers := s0.markers[listing[n] := Injected])
      else s0
  }

  lemma CancelledSnoc(s: HubState, listing: seq<MarkerKey>, i: nat)
    requires i < |listing| && listing[i] !in listing[..i]
    ensures CancelledOf(s, listing[..i + 1]) ==
            if IsQueued(s, listing[i]) then CancelledOf(s, listing[..i]) + {listing[i]} else CancelledOf(s, listing[..i])
    ensures listing[..i + 1][..i] == listing[..i]
  {
    assert forall k :: k in listing[..i + 1] <==> k in listing[..i] || k == listing[i];
  }

  lemma {:induction false} CancelListedExact(s: HubState, listing: seq<MarkerKey>)
    requires forall m :: m in listing ==> m in s.markers
    ensures var s' := CancelListed(s, listing);
            && s'.sequence == s.sequence
            && (forall k :: k in s'.queue <==> k in s.queue && forall m :: m in CancelledOf(s, listing) ==> s.markers[m].key != k)
            && (forall k :: k in s'.queue ==> s'.queue[k] == s.queue[k])
            && (forall m :: m in s'.markers <==> m in s.markers)
            && (forall m :: m in s.markers ==> s'.markers[m] == if m in CancelledOf(s, listing) then Injected else s.markers[m])
  {
    if listing != [] {
      var n := |listing| - 1;
      assert forall k :: k in listing <==> k in listing[..n] || k == listing[n];
      CancelListedExact(s, listing[..n]);
      assert CancelledOf(s, listing) ==
             if IsQueued(s, listing[n]) then CancelledOf(s, listing[..n]) + {listing[n]} else CancelledOf(s, listing[..n]);
    }
  }

  lemma CancelledAll(s: HubState, listing: seq<MarkerKey>, id: string)
    requires forall m :: m in listing <==> m in s.markers && m.id == id
    ensures CancelledOf(s, listing) == QueuedMarkers(s, id)
  {
  }

  lemma CancelledKeys(s: HubState, listing: seq<MarkerKey>, id: string)
    requires forall m :: m in listing ==> m in s.markers
    requires CancelledOf(s, listing) == QueuedMarkers(s, id)
    ensures CancelListed(s, listing).queue == Cancel(s, id).queue
  {
    CancelListedExact(s, listing);
    var s' := CancelListed(s, listing);
    forall k ensures k in s'.queue <==> k in Cancel(s, id).queue {
      assert k in QueuedKeys(s, id) <==> exists m :: m in QueuedMarkers(s, id) && s.markers[m].key == k;
    }
  }

  /** Cancelling over the listing of a message's markers is cancelling the message. */
  lemma CancelSame(s: HubState, listing: seq<MarkerKey>, id: string)
    requires forall m :: m in listing <==> m in s.markers && m.id == id
    ensures CancelListed(s, listing) == Cancel(s, id)
    ensures CancelledOf(s, listing) == QueuedMarkers(s, id)
  {
    CancelledAll(s, listing, id);
    CancelledKeys(s, listing, id);
    CancelListedExact(s, listing);
    assert CancelListed(s, listing).markers == Cancel(s, id).markers;
  }

  lemma PassSnoc(s: HubState, listing: seq<QueueKey>, envs: seq<DispatchEnv>, i: nat)
    requires |envs| == |listing| && i < |listing| && forall k :: k in listing ==> k in s.queue
    ensures var (s0, next) := HubDispatch.Pass(s, listing[..i], envs[..i]);
            var (s', outcome) := DispatchEntry(s0, listing[i], s.queue[listing[i]], envs[i]);
            HubDispatch.Pass(s, listing[..i + 1], envs[..i + 1]) == (s', HubDispatch.NextWake(next, outcome))
  {
    assert listing[..i + 1][..i] == listing[..i] && envs[..i + 1][..i] == envs[..i];
  }
}
