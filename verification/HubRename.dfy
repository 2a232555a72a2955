/**
 The rename part of `applyRoster` (src/do/host-hub.ts): every entry of a renamed
 agent moves to its new name, one transaction an entry, in storage order.

 The correspondence of entries and markers survives exactly when no entry lands on
 a name under which the same message is still, or already, queued.
 */
module HubRename {
  import opened Common
  import opened HubModel
  import opened HubInvariant

  type Renames = map<string, string>

  function Renamed(agent: string, renames: Renames): string {
    if agent in renames then renames[agent] else agent
  }

  function MovedKey(k: QueueKey, item: Item, to: string): QueueKey {
    if k.agent == item.agent then QueueKey(to, k.number) else k
  }

  function MovedItem(item: Item, to: string, slug: string): Item {
    item.(agent := to, targetAddr := to + "@" + slug)
  }

  /** The transaction for one listed entry. */
  function Move(s: HubState, k: QueueKey, item: Item, to: string, slug: string): HubState {
    var k' := MovedKey(k, item, to);
    s.(queue := (s.queue - {k})[k' := MovedItem(item, to, slug)],
       markers := (s.markers - {MarkerOf(item)})[MarkerKey(item.id, to) := Queued(k')])
  }

  function RenameOne(s: HubState, k: QueueKey, item: Item, renames: Renames, slug: string): HubState {
    if item.agent in renames then Move(s, k, item, renames[item.agent], slug) else s
  }

  /** The loop over the listing taken before it starts. */
  function Rename(s: HubState, listing: seq<QueueKey>, renames: Renames, slug: string): HubState
    requires forall k :: k in listing ==> k in s.queue
  {
    if listing == [] then s
    else
      var last := listing[|listing| - 1];
      RenameOne(Rename(s, listing[..|listing| - 1], renames, slug), last, s.queue[last], renames, slug)
  }

  /** The listing holds every entry once. */
  ghost predicate IsListing(s: HubState, listing: seq<QueueKey>) {
    && (forall k :: k in listing <==> k in s.queue)
    && (forall i, j :: 0 <= i < j < |listing| ==> listing[i] != listing[j])
  }

  /** A pane that keeps its name is not renamed. */
  predicate RealRenames(renames: Renames) {
    forall a :: a in renames ==> renames[a] != a
  }

  /** The recipient entry j has when entry i is moved. */
  function RecipientWhen(listing: seq<QueueKey>, renames: Renames, i: nat, j: nat): string
    requires j < |listing|
  {
    if j < i then Renamed(listing[j].agent, renames) else listing[j].agent
  }

  /**
   What a caller can check on the listing: whenever an entry is moved, no other
   entry of the same message has the new name at that moment.
   */
  ghost predicate CollisionFree(s: HubState, listing: seq<QueueKey>, renames: Renames)
    requires forall k :: k in listing ==> k in s.queue
  {
    forall i, j :: 0 <= i < |listing| && 0 <= j < |listing| && i != j
      && listing[i].agent in renames && s.queue[listing[i]].id == s.queue[listing[j]].id
      ==> RecipientWhen(listing, renames, i, j) != renames[listing[i].agent]
  }

  // ---------------------------------------------------------------- one move

  lemma MoveNumbered(s: HubState, k: QueueKey, to: string, slug: string)
    requires Numbered(s) && k in s.queue && s.queue[k].agent == k.agent
    ensures Numbered(Move(s, k, s.queue[k], to, slug))
  {
    var s' := Move(s, k, s.queue[k], to, slug);
    forall m | m in s'.markers && s'.markers[m].Dead? ensures DeadLetter(s', m) {
      assert DeadLetter(s, m);
    }
  }

  lemma MoveCorresponds(s: HubState, k: QueueKey, to: string, slug: string)
    requires Inv(s) && k in s.queue && to != k.agent
    requires forall k' :: k' in s.queue ==> MarkerOf(s.queue[k']) != MarkerKey(s.queue[k].id, to)
    ensures Corresponds(Move(s, k, s.queue[k], to, slug))
  {
    var s' := Move(s, k, s.queue[k], to, slug);
    assert EntryMarked(s, k);
    forall k' | k' in s'.queue ensures EntryMarked(s', k') {
      if k' in s.queue && k' != k {
        assert EntryMarked(s, k');
      }
    }
    forall m | m in s'.markers && s'.markers[m].Queued? ensures MarkerBacked(s', m) {
      if m != MarkerKey(s.queue[k].id, to) {
        assert MarkerBacked(s, m);
      }
    }
  }

  /** An entry the loop will not touch again, whose marker is not, or not only, its own. */
  ghost predicate Stranded(s: HubState, rest: seq<QueueKey>, k: QueueKey) {
    && k in s.queue && k !in rest
    && (MarkerPointsElsewhere(s, k) || exists k' :: k' in s.queue && k' != k && MarkerOf(s.queue[k']) == MarkerOf(s.queue[k]))
  }

  ghost predicate MarkerPointsElsewhere(s: HubState, k: QueueKey)
    requires k in s.queue
  {
    MarkerOf(s.queue[k]) in s.markers ==> s.markers[MarkerOf(s.queue[k])] != Queued(k)
  }

  /** No later move repairs a stranded entry. */
  lemma StrandedStays(s: HubState, rest: seq<QueueKey>, k: QueueKey, to: string, slug: string)
    requires Numbered(s) && rest != [] && rest[0] in s.queue && s.queue[rest[0]].agent == rest[0].agent != to
    requires rest[0] !in rest[1..]
    requires Stranded(s, rest, k)
    ensures Stranded(Move(s, rest[0], s.queue[rest[0]], to, slug), rest[1..], k)
  {
    var moved := rest[0];
    var s' := Move(s, moved, s.queue[moved], to, slug);
    assert k != moved && MovedKey(moved, s.queue[moved], to) != k;
    assert k in s'.queue && s'.queue[k] == s.queue[k];
    if !MarkerPointsElsewhere(s, k) {
      var k' :| k' in s.queue && k' != k && MarkerOf(s.queue[k']) == MarkerOf(s.queue[k]);
      if k' == moved {
        assert MarkerPointsElsewhere(s', k);
      } else {
        assert k' in s'.queue && s'.queue[k'] == s.queue[k'];
      }
    } else {
      assert MarkerPointsElsewhere(s', k);
    }
  }

  lemma StrandedBreaks(s: HubState, k: QueueKey)
    requires Stranded(s, [], k)
    ensures !Corresponds(s)
  {
    if MarkerPointsElsewhere(s, k) {
      assert !EntryMarked(s, k);
    } else {
      var k' :| k' in s.queue && k' != k && MarkerOf(s.queue[k']) == MarkerOf(s.queue[k]);
      assert !EntryMarked(s, k) || !EntryMarked(s, k');
    }
  }

  // ---------------------------------------------------------------- the loop

  /** Where entry j of the listing is after n iterations. */
  function KeyAfter(listing: seq<QueueKey>, renames: Renames, n: nat, j: nat): QueueKey
    requires j < |listing|
  {
    QueueKey(RecipientWhen(listing, renames, n, j), listing[j].number)
  }

  function ItemAfter(s: HubState, listing: seq<QueueKey>, renames: Renames, slug: string, n: nat, j: nat): Item
    requires j < |listing| && listing[j] in s.queue
  {
    var item := s.queue[listing[j]];
    if j < n && listing[j].agent in renames then MovedItem(item, renames[listing[j].agent], slug) else item
  }

  ghost predicate EntryAt(
    s: HubState, listing: seq<QueueKey>, renames: Renames, slug: string, n: nat, s': HubState, j: nat)
    requires j < |listing| && listing[j] in s.queue
  {
    && KeyAfter(listing, renames, n, j) in s'.queue
    && s'.queue[KeyAfter(listing, renames, n, j)] == ItemAfter(s, listing, renames, slug, n, j)
  }

  predicate IsKeyOf(listing: seq<QueueKey>, renames: Renames, n: nat, j: nat, k: QueueKey) {
    j < |listing| && k == KeyAfter(listing, renames, n, j)
  }

  /** The queue after n iterations in closed form: every entry, where it has got to, and nothing else. */
  ghost predicate QueueAfter(
    s: HubState, listing: seq<QueueKey>, renames: Renames, slug: string, n: nat, s': HubState)
    requires forall j :: 0 <= j < |listing| ==> listing[j] in s.queue
  {
    && (forall j :: 0 <= j < |listing| ==> EntryAt(s, listing, renames, slug, n, s', j))
    && (forall k :: k in s'.queue ==> exists j: nat :: IsKeyOf(listing, renames, n, j, k))
    && s'.sequence == s.sequence
  }

  /** What the listing says about each entry it holds. */
  ghost predicate Listed(s: HubState, listing: seq<QueueKey>) {
    && (forall j :: 0 <= j < |listing| ==> listing[j] in s.queue && s.queue[listing[j]].agent == listing[j].agent)
    && (forall i, j :: 0 <= i < |listing| && 0 <= j < |listing| && i != j ==> listing[i].number != listing[j].number)
    && (forall k :: k in s.queue ==> k in listing)
  }

  lemma ListingFacts(s: HubState, listing: seq<QueueKey>)
    requires Inv(s) && IsListing(s, listing)
    ensures Listed(s, listing)
  {
    forall j | 0 <= j < |listing| ensures listing[j] in s.queue && s.queue[listing[j]].agent == listing[j].agent {
      assert listing[j] in listing;
      assert EntryMarked(s, listing[j]);
    }
    forall i, j | 0 <= i < |listing| && 0 <= j < |listing| && i != j ensures listing[i].number != listing[j].number {
      assert listing[i] in listing && listing[j] in listing;
      if i < j { assert listing[i] != listing[j]; } else { assert listing[j] != listing[i]; }
    }
  }

  lemma QueueAtStart(s: HubState, listing: seq<QueueKey>, renames: Renames, slug: string)
    requires Listed(s, listing)
    ensures QueueAfter(s, listing, renames, slug, 0, s)
  {
    forall j | 0 <= j < |listing| ensures EntryAt(s, listing, renames, slug, 0, s, j) {
      assert KeyAfter(listing, renames, 0, j) == listing[j];
    }
    forall k | k in s.queue ensures exists j: nat :: IsKeyOf(listing, renames, 0, j, k) {
      assert k in listing;
      var j :| 0 <= j < |listing| && listing[j] == k;
      assert IsKeyOf(listing, renames, 0, j, k);
    }
  }

  lemma QueueStep(
    s: HubState, listing: seq<QueueKey>, renames: Renames, slug: string, n: nat, s0: HubState, s': HubState)
    requires Listed(s, listing) && n < |listing| && QueueAfter(s, listing, renames, slug, n, s0)
    requires s' == RenameOne(s0, listing[n], s.queue[listing[n]], renames, slug)
    ensures QueueAfter(s, listing, renames, slug, n + 1, s')
  {
    var last, m := listing[n], n + 1;
    forall j | 0 <= j < |listing| ensures EntryAt(s, listing, renames, slug, m, s', j) {
      assert EntryAt(s, listing, renames, slug, n, s0, j);
      if j != n {
        assert KeyAfter(listing, renames, m, j) == KeyAfter(listing, renames, n, j);
        assert listing[j].number != last.number;
      }
    }
    forall k | k in s'.queue ensures exists j: nat :: IsKeyOf(listing, renames, m, j, k) {
      if last.agent in renames && k == MovedKey(last, s.queue[last], renames[last.agent]) {
        assert IsKeyOf(listing, renames, m, n, k);
      } else {
        assert k in s0.queue;
        var j: nat :| IsKeyOf(listing, renames, n, j, k);
        assert IsKeyOf(listing, renames, m, j, k);
      }
    }
  }

  /** Whether iteration n (from 0) puts an entry on a name that already has the message. */
  ghost predicate Collides(s: HubState, listing: seq<QueueKey>, renames: Renames, n: nat)
    requires n < |listing| && forall j :: 0 <= j < |listing| ==> listing[j] in s.queue
  {
    && listing[n].agent in renames
    && exists j :: 0 <= j < |listing| && j != n && s.queue[listing[j]].id == s.queue[listing[n]].id
                   && RecipientWhen(listing, renames, n, j) == renames[listing[n].agent]
  }

  ghost predicate Clean(s: HubState, listing: seq<QueueKey>, renames: Renames, n: nat)
    requires n <= |listing| && forall j :: 0 <= j < |listing| ==> listing[j] in s.queue
  {
    forall i :: 0 <= i < n ==> !Collides(s, listing, renames, i)
  }

  ghost predicate HasStranded(s: HubState, rest: seq<QueueKey>) {
    exists k :: Stranded(s, rest, k)
  }

  /** The loop so far: intact while nothing has collided, and beyond repair once something has. */
  ghost predicate LoopState(
    s: HubState, listing: seq<QueueKey>, renames: Renames, slug: string, n: nat, s': HubState)
    requires n <= |listing| && forall j :: 0 <= j < |listing| ==> listing[j] in s.queue
  {
    && QueueAfter(s, listing, renames, slug, n, s')
    && Numbered(s')
    && (Clean(s, listing, renames, n) ==> Corresponds(s'))
    && (!Clean(s, listing, renames, n) ==> HasStranded(s', listing[n..]))
  }

  lemma RenameSnoc(s: HubState, listing: seq<QueueKey>, renames: Renames, slug: string, i: nat)
    requires i < |listing| && forall k :: k in listing ==> k in s.queue
    ensures Rename(s, listing[..i + 1], renames, slug) ==
            RenameOne(Rename(s, listing[..i], renames, slug), listing[i], s.queue[listing[i]], renames, slug)
  {
    assert listing[..i + 1][..i] == listing[..i];
  }

  lemma {:induction false} LoopReaches(
    s: HubState, listing: seq<QueueKey>, renames: Renames, slug: string, n: nat)
    requires Inv(s) && IsListing(s, listing) && RealRenames(renames) && n <= |listing|
    ensures forall k :: k in listing[..n] ==> k in s.queue
    ensures forall j :: 0 <= j < |listing| ==> listing[j] in s.queue
    ensures LoopState(s, listing, renames, slug, n, Rename(s, listing[..n], renames, slug))
  {
    ListingFacts(s, listing);
    if n == 0 {
      QueueAtStart(s, listing, renames, slug);
    } else {
      LoopReaches(s, listing, renames, slug, n - 1);
      RenameSnoc(s, listing, renames, slug, n - 1);
      LoopStep(s, listing, renames, slug, n - 1,
               Rename(s, listing[..n - 1], renames, slug), Rename(s, listing[..n], renames, slug));
    }
  }

  lemma LoopStep(
    s: HubState, listing: seq<QueueKey>, renames: Renames, slug: string, n: nat, s0: HubState, s': HubState)
    requires Inv(s) && Listed(s, listing) && RealRenames(renames) && n < |listing|
    requires LoopState(s, listing, renames, slug, n, s0)
    requires s' == RenameOne(s0, listing[n], s.queue[listing[n]], renames, slug)
    ensures LoopState(s, listing, renames, slug, n + 1, s')
  {
    QueueStep(s, listing, renames, slug, n, s0, s');
    assert EntryAt(s, listing, renames, slug, n, s0, n);
    if listing[n].agent in renames {
      MoveNumbered(s0, listing[n], renames[listing[n].agent], slug);
    }
    LoopMarkers(s, listing, renames, slug, n, s0, s');
  }

  lemma LoopMarkers(
    s: HubState, listing: seq<QueueKey>, renames: Renames, slug: string, n: nat, s0: HubState, s': HubState)
    requires Listed(s, listing) && RealRenames(renames) && n < |listing|
    requires LoopState(s, listing, renames, slug, n, s0)
    requires s' == RenameOne(s0, listing[n], s.queue[listing[n]], renames, slug)
    ensures Clean(s, listing, renames, n + 1) ==> Corresponds(s')
    ensures !Clean(s, listing, renames, n + 1) ==> HasStranded(s', listing[n + 1..])
  {
    var last := listing[n];
    assert EntryAt(s, listing, renames, slug, n, s0, n);
    if !Clean(s, listing, renames, n) {
      assert !Clean(s, listing, renames, n + 1);
      StillStranded(s0, listing, n, s.queue[last], renames, slug);
    } else {
      assert Clean(s, listing, renames, n + 1) <==> !Collides(s, listing, renames, n);
      if last.agent in renames {
        if Collides(s, listing, renames, n) {
          CollidingMove(s, listing, renames, slug, n, s0);
        } else {
          CleanMove(s, listing, renames, slug, n, s0);
        }
      }
    }
  }

  lemma StillStranded(s0: HubState, listing: seq<QueueKey>, n: nat, item: Item, renames: Renames, slug: string)
    requires n < |listing| && listing[n] !in listing[n + 1..] && RealRenames(renames)
    requires Numbered(s0) && listing[n] in s0.queue && s0.queue[listing[n]] == item && item.agent == listing[n].agent
    requires HasStranded(s0, listing[n..])
    ensures HasStranded(RenameOne(s0, listing[n], item, renames, slug), listing[n + 1..])
  {
    var rest := listing[n..];
    assert rest[0] == listing[n] && rest[1..] == listing[n + 1..];
    var k :| Stranded(s0, rest, k);
    if item.agent in renames {
      StrandedStays(s0, rest, k, renames[item.agent], slug);
    } else {
      assert Stranded(s0, rest[1..], k);
    }
  }

  /** Everything about the state in which entry n is about to be moved. */
  ghost predicate AboutToMove(s: HubState, listing: seq<QueueKey>, renames: Renames, slug: string, n: nat, s0: HubState)
    requires forall j :: 0 <= j < |listing| ==> listing[j] in s.queue
  {
    && Listed(s, listing) && RealRenames(renames) && n < |listing|
    && QueueAfter(s, listing, renames, slug, n, s0) && Inv(s0)
    && listing[n].agent in renames && listing[n] in s0.queue && s0.queue[listing[n]] == s.queue[listing[n]]
  }

  /** The first collision strands an entry. */
  lemma CollidingMove(s: HubState, listing: seq<QueueKey>, renames: Renames, slug: string, n: nat, s0: HubState)
    requires Listed(s, listing) && AboutToMove(s, listing, renames, slug, n, s0)
    requires Collides(s, listing, renames, n)
    ensures HasStranded(Move(s0, listing[n], s.queue[listing[n]], renames[listing[n].agent], slug), listing[n + 1..])
  {
    var last := listing[n];
    var to := renames[last.agent];
    var s' := Move(s0, last, s.queue[last], to, slug);
    var j :| 0 <= j < |listing| && j != n && s.queue[listing[j]].id == s.queue[last].id
             && RecipientWhen(listing, renames, n, j) == to;
    assert EntryAt(s, listing, renames, slug, n, s0, j);
    var k := KeyAfter(listing, renames, n, j);
    var k' := QueueKey(to, last.number);
    assert k in s'.queue && k' in s'.queue && k != k';
    assert MarkerOf(s'.queue[k]) == MarkerOf(s'.queue[k']);
    assert k' !in listing[n + 1..];
    assert Stranded(s', listing[n + 1..], k');
  }

  /** A move without a collision keeps the correspondence. */
  lemma CleanMove(s: HubState, listing: seq<QueueKey>, renames: Renames, slug: string, n: nat, s0: HubState)
    requires Listed(s, listing) && AboutToMove(s, listing, renames, slug, n, s0)
    requires !Collides(s, listing, renames, n)
    ensures Corresponds(Move(s0, listing[n], s.queue[listing[n]], renames[listing[n].agent], slug))
  {
    var last := listing[n];
    var to := renames[last.agent];
    forall k | k in s0.queue ensures MarkerOf(s0.queue[k]) != MarkerKey(s.queue[last].id, to) {
      var j: nat :| IsKeyOf(listing, renames, n, j, k);
      assert EntryAt(s, listing, renames, slug, n, s0, j);
    }
    MoveCorresponds(s0, last, to, slug);
  }

  lemma CollidesSomewhere(s: HubState, listing: seq<QueueKey>, renames: Renames)
    requires forall k :: k in listing ==> k in s.queue
    requires !CollisionFree(s, listing, renames)
    ensures exists i :: 0 <= i < |listing| && Collides(s, listing, renames, i)
  {
    var i, j :| 0 <= i < |listing| && 0 <= j < |listing| && i != j
      && listing[i].agent in renames && s.queue[listing[i]].id == s.queue[listing[j]].id
      && RecipientWhen(listing, renames, i, j) == renames[listing[i].agent];
    assert Collides(s, listing, renames, i);
  }

  /** The condition on the listing says that no iteration of the loop collides. */
  lemma CollisionFreeIsClean(s: HubState, listing: seq<QueueKey>, renames: Renames)
    requires forall k :: k in listing ==> k in s.queue
    ensures CollisionFree(s, listing, renames) <==> Clean(s, listing, renames, |listing|)
  {
    if !CollisionFree(s, listing, renames) {
      CollidesSomewhere(s, listing, renames);
    }
  }

  lemma HasStrandedBreaks(s: HubState)
    requires HasStranded(s, [])
    ensures !Corresponds(s)
  {
    var k :| Stranded(s, [], k);
    StrandedBreaks(s, k);
  }

  /**
   A roster rename keeps the one-to-one correspondence exactly when it is collision
   free; in either case no entry is lost and sequence numbers stay unique.
   */
  lemma RenameExact(s: HubState, listing: seq<QueueKey>, renames: Renames, slug: string)
    requires Inv(s) && IsListing(s, listing) && RealRenames(renames)
    ensures Numbered(Rename(s, listing, renames, slug))
    ensures Corresponds(Rename(s, listing, renames, slug)) <==> CollisionFree(s, listing, renames)
  {
    var n := |listing|;
    LoopReaches(s, listing, renames, slug, n);
    assert listing[..n] == listing && listing[n..] == [];
    CollisionFreeIsClean(s, listing, renames);
    if !Clean(s, listing, renames, n) {
      HasStrandedBreaks(Rename(s, listing, renames, slug));
    }
  }

  lemma RenameKeeps(s: HubState, listing: seq<QueueKey>, renames: Renames, slug: string)
    requires Inv(s) && IsListing(s, listing) && RealRenames(renames) && CollisionFree(s, listing, renames)
    ensures Inv(Rename(s, listing, renames, slug))
  {
    RenameExact(s, listing, renames, slug);
  }

  function Note(id: string, agent: string): DeliveryInput {
    DeliveryInput(id, "org", agent, agent + "@box", "hello", None, None, None, None, false, None)
  }

  /** One message queued for two agents. */
  function QueuedForBoth(a: string, b: string, id: string, now: int): HubState {
    QueueDelivery(QueueDelivery(EMPTY, Note(id, a), true, now).0, Note(id, b), true, now).0
  }

  lemma QueuedForBothKeeps(a: string, b: string, id: string, now: int)
    ensures Inv(QueuedForBoth(a, b, id, now))
  {
    EmptyInv();
    var s := QueueDelivery(EMPTY, Note(id, a), true, now).0;
    QueueDeliveryKeeps(EMPTY, Note(id, a), true, now);
    QueueDeliveryKeeps(s, Note(id, b), true, now);
  }

  lemma QueuedForBothShape(a: string, b: string, id: string, now: int)
    requires a != b
    ensures var s := QueuedForBoth(a, b, id, now);
            IsListing(s, [QueueKey(a, 1), QueueKey(b, 2)]) && s.queue[QueueKey(a, 1)].id == s.queue[QueueKey(b, 2)].id
  {
    assert QueuedForBoth(a, b, id, now).queue.Keys == {QueueKey(a, 1), QueueKey(b, 2)};
  }

  /**
   The condition is needed: two agents that swap names while one message is queued
   for both leave an entry whose marker is gone.
   */
  lemma SwapBreaks(a: string, b: string, id: string, now: int)
    requires a != b
    ensures var s := QueuedForBoth(a, b, id, now);
            var listing := [QueueKey(a, 1), QueueKey(b, 2)];
            && Inv(s) && IsListing(s, listing)
            && !Corresponds(Rename(s, listing, map[a := b, b := a], "box"))
  {
    var listing := [QueueKey(a, 1), QueueKey(b, 2)];
    var renames := map[a := b, b := a];
    QueuedForBothKeeps(a, b, id, now);
    QueuedForBothShape(a, b, id, now);
    RenameExact(QueuedForBoth(a, b, id, now), listing, renames, "box");
    assert RecipientWhen(listing, renames, 0, 1) == renames[listing[0].agent];
  }
}
