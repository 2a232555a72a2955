/** What the identity registry keeps over every registration, rename and departure. */
module RegistryLaws {
  import opened Common
  import opened RegistryModel

  // ---------------------------------------------------------------- absorption does not depend on map order

  lemma {:induction false} AbsorbNothing(a: Absorbing, key: Key, name: string, enrollment: string, order: seq<Key>)
    requires forall k :: !Absorbs(a.reg.names, k, key, name, enrollment)
    ensures Absorb(a, key, name, enrollment, order) == a
  {
    if order != [] {
      AbsorbNothing(a, key, name, enrollment, order[..|order| - 1]);
    }
  }

  lemma {:induction false} AbsorbRival(
    a: Absorbing, key: Key, name: string, enrollment: string, order: seq<Key>, rival: Key)
    requires NamesUnique(a.reg) && Absorbs(a.reg.names, rival, key, name, enrollment)
    ensures Absorb(a, key, name, enrollment, order) ==
            if rival in order then AbsorbOne(a, key, name, enrollment, rival) else a
  {
    if order != [] {
      var n := |order| - 1;
      assert order == order[..n] + [order[n]];
      AbsorbRival(a, key, name, enrollment, order[..n], rival);
      assert forall k :: Absorbs(a.reg.names, k, key, name, enrollment) ==> k == rival;
    }
  }

  /** Go visits a map in any order; with unique names at most one record is folded in, so the order cannot show. */
  lemma AbsorbOrderIrrelevant(
    a: Absorbing, key: Key, name: string, enrollment: string, order: seq<Key>, order': seq<Key>)
    requires NamesUnique(a.reg) && IsOrder(a.reg, order) && IsOrder(a.reg, order')
    ensures Absorb(a, key, name, enrollment, order) == Absorb(a, key, name, enrollment, order')
  {
    if rival :| Absorbs(a.reg.names, rival, key, name, enrollment) {
      AbsorbRival(a, key, name, enrollment, order, rival);
      AbsorbRival(a, key, name, enrollment, order', rival);
    } else {
      AbsorbNothing(a, key, name, enrollment, order);
      AbsorbNothing(a, key, name, enrollment, order');
    }
  }

  // ---------------------------------------------------------------- the registration, once its name is decided

  /** Records and tokens are consistent, and no other record of the organization has the name. */
  ghost predicate Cleared(a: Absorbing, key: Key, enrollment: string) {
    && NamesUnique(a.reg) && TokensInverse(a.reg) && LiveRecorded(a.reg)
    && key.enrollment == enrollment == a.record.enrollment
    && (forall k :: k in a.reg.names && k != key && k.enrollment == enrollment ==> a.reg.names[k].name != a.record.name)
  }

  /** The credential and generation the identity brings along. */
  ghost predicate CarriesOver(r: Registry, a: Absorbing, key: Key) {
    && (key in r.names ==> key in a.reg.names && a.reg.names[key] == r.names[key])
    && (key in r.names && r.names[key].token != "" ==> a.record.token == r.names[key].token)
    && (forall k :: k in a.reg.names && k != key && a.record.token != "" ==> a.reg.names[k].token != a.record.token)
    && (forall k :: k in r.names && (k == key || k !in a.reg.names) ==> r.names[k].generation <= a.record.generation)
  }

  /** What absorption removed: one identity at most, of the same organization and name, with its live adapter. */
  ghost predicate Shrunk(r: Registry, a: Absorbing, key: Key, enrollment: string) {
    Fewer(r, a) && SupersededNames(r, a, key, enrollment) && DisplacedLive(r, a, key) && TokensWithRecords(r, a)
  }

  ghost predicate Fewer(r: Registry, a: Absorbing) {
    && a.reg.heap == r.heap && a.reg.byName == r.byName
    && (forall k :: k in a.reg.names ==> k in r.names && a.reg.names[k] == r.names[k])
    && (forall k :: k in a.reg.live ==> k in r.live && a.reg.live[k] == r.live[k])
    && (forall t :: t in a.reg.tokens ==> t in r.tokens && a.reg.tokens[t] == r.tokens[t])
  }

  ghost predicate SupersededNames(r: Registry, a: Absorbing, key: Key, enrollment: string) {
    && (forall k :: k in r.names && k !in a.reg.names ==> Superseded(r, a, key, enrollment, k))
    && (forall k :: k in r.live && k in a.reg.names ==> k in a.reg.live)
  }

  ghost predicate DisplacedLive(r: Registry, a: Absorbing, key: Key) {
    forall k :: k in r.live ==> (k == key || k !in a.reg.live <==> r.live[k] in a.displaced)
  }

  ghost predicate TokensWithRecords(r: Registry, a: Absorbing) {
    forall t :: t in r.tokens && t !in a.reg.tokens ==> r.tokens[t] in r.names && r.tokens[t] !in a.reg.names
  }

  ghost predicate Superseded(r: Registry, a: Absorbing, key: Key, enrollment: string, k: Key)
    requires k in r.names
  {
    k != key && k.enrollment == enrollment && r.names[k].name == a.record.name
  }

  ghost predicate Displaces(r: Registry, a: Absorbing, key: Key, enrollment: string) {
    forall i :: 0 <= i < |a.displaced| ==> DisplacedAt(r, a, key, enrollment, a.displaced[i])
  }

  ghost predicate DisplacedAt(r: Registry, a: Absorbing, key: Key, enrollment: string, conn: nat) {
    && conn in r.heap && r.heap[conn].enrollment == enrollment
    && r.heap[conn].key in r.live && r.live[r.heap[conn].key] == conn
    && (r.heap[conn].key == key || (r.heap[conn].key !in a.reg.live && r.heap[conn].name == a.record.name))
  }

  ghost predicate Decided(r: Registry, a: Absorbing, key: Key, enrollment: string) {
    Cleared(a, key, enrollment) && CarriesOver(r, a, key) && Shrunk(r, a, key, enrollment) && Displaces(r, a, key, enrollment)
  }

  lemma IdentifyFacts(r: Registry, f: Frame, s: Supply)
    requires Inv(r) && Identify(r, f, s).Ok?
    ensures Identify(r, f, s).value.key.enrollment == f.enrollment
  {
  }

  function Start(r: Registry, key: Key, enrollment: string): Absorbing {
    Absorbing(r, RecordOf(r, key).(enrollment := enrollment), if key in r.live then [r.live[key]] else [])
  }

  lemma DecidedWithoutRival(r: Registry, key: Key, enrollment: string, name: string, namedBy: NamedBy)
    requires Inv(r) && key.enrollment == enrollment
    requires forall k :: k in r.names && k != key && k.enrollment == enrollment ==> r.names[k].name != name
    ensures var a := Start(r, key, enrollment);
            Decided(r, a.(record := a.record.(name := name, namedBy := namedBy)), key, enrollment)
  {
    if key in r.live {
      assert RecordedAs(r, key);
    }
    var start := Start(r, key, enrollment);
    var a := start.(record := start.record.(name := name, namedBy := namedBy));
    forall k | k in r.live && r.live[k] in a.displaced ensures k == key {
      assert RecordedAs(r, k);
    }
  }

  /** The identity once a rival record of its name has been folded in. */
  function Folded(r: Registry, key: Key, enrollment: string, name: string, namedBy: NamedBy, rival: Key): Absorbing {
    var a := AbsorbOne(Start(r, key, enrollment), key, name, enrollment, rival);
    a.(record := a.record.(name := name, namedBy := namedBy))
  }

  lemma FoldedClears(r: Registry, key: Key, enrollment: string, name: string, namedBy: NamedBy, rival: Key)
    requires Inv(r) && key.enrollment == enrollment && Absorbs(r.names, rival, key, name, enrollment)
    ensures Cleared(Folded(r, key, enrollment, name, namedBy, rival), key, enrollment)
  {
    var a := Folded(r, key, enrollment, name, namedBy, rival);
    assert NamesUnique(a.reg) && TokensInverse(a.reg);
    forall k | k in a.reg.live ensures RecordedAs(a.reg, k) {
      assert RecordedAs(r, k);
    }
  }

  lemma FoldedCarries(r: Registry, key: Key, enrollment: string, name: string, namedBy: NamedBy, rival: Key)
    requires Inv(r) && key.enrollment == enrollment && Absorbs(r.names, rival, key, name, enrollment)
    ensures CarriesOver(r, Folded(r, key, enrollment, name, namedBy, rival), key)
  {
    var a := Folded(r, key, enrollment, name, namedBy, rival);
    forall k | k in a.reg.names && k != key && a.record.token != "" ensures a.reg.names[k].token != a.record.token {
      assert k in r.names && k != rival;
      assert r.names[k].token != "" ==> r.tokens[r.names[k].token] == k;
    }
  }

  lemma FoldedDisplacedExact(r: Registry, key: Key, enrollment: string, name: string, namedBy: NamedBy, rival: Key, k: Key)
    requires Inv(r) && key.enrollment == enrollment && Absorbs(r.names, rival, key, name, enrollment) && k in r.live
    ensures var a := Folded(r, key, enrollment, name, namedBy, rival);
            k == key || k !in a.reg.live <==> r.live[k] in a.displaced
  {
    assert RecordedAs(r, k);
    if rival in r.live {
      assert RecordedAs(r, rival);
    }
    if key in r.live {
      assert RecordedAs(r, key);
    }
  }

  lemma FoldedShrinks(r: Registry, key: Key, enrollment: string, name: string, namedBy: NamedBy, rival: Key)
    requires Inv(r) && key.enrollment == enrollment && Absorbs(r.names, rival, key, name, enrollment)
    ensures Shrunk(r, Folded(r, key, enrollment, name, namedBy, rival), key, enrollment)
  {
    FoldedFewer(r, key, enrollment, name, namedBy, rival);
    FoldedDisplacedLive(r, key, enrollment, name, namedBy, rival);
    FoldedTokens(r, key, enrollment, name, namedBy, rival);
  }

  lemma FoldedFewer(r: Registry, key: Key, enrollment: string, name: string, namedBy: NamedBy, rival: Key)
    requires Absorbs(r.names, rival, key, name, enrollment) && TokensInverse(r) && NamesUnique(r)
    ensures var a := Folded(r, key, enrollment, name, namedBy, rival);
            Fewer(r, a) && SupersededNames(r, a, key, enrollment)
  {
  }

  lemma FoldedDisplacedLive(r: Registry, key: Key, enrollment: string, name: string, namedBy: NamedBy, rival: Key)
    requires Inv(r) && key.enrollment == enrollment && Absorbs(r.names, rival, key, name, enrollment)
    ensures DisplacedLive(r, Folded(r, key, enrollment, name, namedBy, rival), key)
  {
    var a := Folded(r, key, enrollment, name, namedBy, rival);
    forall k | k in r.live ensures k == key || k !in a.reg.live <==> r.live[k] in a.displaced {
      FoldedDisplacedExact(r, key, enrollment, name, namedBy, rival, k);
    }
  }

  lemma FoldedTokens(r: Registry, key: Key, enrollment: string, name: string, namedBy: NamedBy, rival: Key)
    requires TokensInverse(r) && Absorbs(r.names, rival, key, name, enrollment)
    ensures TokensWithRecords(r, Folded(r, key, enrollment, name, namedBy, rival))
  {
  }

  lemma FoldedDisplaces(r: Registry, key: Key, enrollment: string, name: string, namedBy: NamedBy, rival: Key)
    requires Inv(r) && key.enrollment == enrollment && Absorbs(r.names, rival, key, name, enrollment)
    ensures Displaces(r, Folded(r, key, enrollment, name, namedBy, rival), key, enrollment)
  {
    var a := Folded(r, key, enrollment, name, namedBy, rival);
    if rival in r.live {
      assert RecordedAs(r, rival);
      assert DisplacedAt(r, a, key, enrollment, r.live[rival]);
    }
    if key in r.live {
      assert RecordedAs(r, key);
      assert DisplacedAt(r, a, key, enrollment, r.live[key]);
    }
  }

  lemma DecidedWithRival(r: Registry, key: Key, enrollment: string, name: string, namedBy: NamedBy, rival: Key)
    requires Inv(r) && key.enrollment == enrollment && Absorbs(r.names, rival, key, name, enrollment)
    ensures Decided(r, Folded(r, key, enrollment, name, namedBy, rival), key, enrollment)
  {
    FoldedClears(r, key, enrollment, name, namedBy, rival);
    FoldedCarries(r, key, enrollment, name, namedBy, rival);
    FoldedShrinks(r, key, enrollment, name, namedBy, rival);
    FoldedDisplaces(r, key, enrollment, name, namedBy, rival);
  }

  lemma NamedDecides(r: Registry, f: Frame, s: Supply, id: Identity, order: seq<Key>)
    requires Inv(r) && GoodSupply(r, f, s) && IsOrder(r, order) && id.key.enrollment == f.enrollment
    requires Named(r, f, s, id, order).Ok?
    ensures Decided(r, Named(r, f, s, id, order).value, id.key, f.enrollment)
  {
    var start := Start(r, id.key, f.enrollment);
    var a := Named(r, f, s, id, order).value;
    var declared := if id.name != "" then id.name else s.paneName;
    if id.name == "" && id.key in r.names
       && !(start.record.namedBy == ByAuto && s.paneName != "" && s.paneName != start.record.name) {
      assert a == start.(record := start.record.(name := start.record.name, namedBy := start.record.namedBy));
      DecidedWithoutRival(r, id.key, f.enrollment, start.record.name, start.record.namedBy);
    } else if declared == "" {
      DecidedWithoutRival(r, id.key, f.enrollment, s.autoName.value, ByAuto);
    } else if rival :| Absorbs(r.names, rival, id.key, declared, f.enrollment) {
      AbsorbRival(start, id.key, declared, f.enrollment, order, rival);
      DecidedWithRival(r, id.key, f.enrollment, declared, a.record.namedBy, rival);
    } else {
      AbsorbNothing(start, id.key, declared, f.enrollment, order);
      assert forall k :: k in r.names ==> !Absorbs(r.names, k, id.key, declared, f.enrollment);
      DecidedWithoutRival(r, id.key, f.enrollment, declared, a.record.namedBy);
    }
  }

  // ---------------------------------------------------------------- writing it

  /** The second `name_taken` check can never refuse: whoever holds the name has been displaced. */
  lemma HolderDisplaced(r: Registry, a: Absorbing, key: Key, enrollment: string)
    requires Inv(r) && Decided(r, a, key, enrollment)
    ensures var slot := Slot(enrollment, a.record.name);
            slot in a.reg.byName ==> a.reg.byName[slot] in a.displaced
  {
    var slot := Slot(enrollment, a.record.name);
    if slot in r.byName {
      assert BoundLive(r, slot);
      assert RecordedAs(r, r.heap[r.byName[slot]].key);
    }
  }

  lemma {:induction false} UnbindAllExact(r: Registry, byName: map<Slot, nat>, displaced: seq<nat>, name: string)
    ensures var b := UnbindAll(r, byName, displaced, name);
            && (forall slot :: slot in b ==> slot in byName && b[slot] == byName[slot])
            && (forall slot :: slot in byName && slot !in b ==>
                  byName[slot] in displaced && byName[slot] in r.heap
                  && SlotOf(r.heap[byName[slot]]) == slot && slot.name != name)
            && (forall c :: c in displaced && c in r.heap && r.heap[c].name != name && SlotOf(r.heap[c]) in b
                  ==> b[SlotOf(r.heap[c])] != c)
  {
    if displaced != [] {
      var n := |displaced| - 1;
      UnbindAllExact(r, byName, displaced[..n], name);
      assert displaced == displaced[..n] + [displaced[n]];
    }
  }

  /** Records and tokens with the identity's own record written. */
  function Written(a: Absorbing, key: Key, record: Record): Registry {
    a.reg.(names := a.reg.names[key := record], tokens := a.reg.tokens[record.token := key])
  }

  /** The sealed record's credential is its own: nobody else has it. */
  lemma SealedToken(r: Registry, a: Absorbing, f: Frame, s: Supply, key: Key, record: Record)
    requires Inv(r) && Decided(r, a, key, f.enrollment) && GoodSupply(r, f, s)
    requires Sealed(a.record, s) == Ok(record)
    ensures record.token != "" && record.name == a.record.name && record.enrollment == f.enrollment
    ensures forall k :: k in a.reg.names && k != key ==> a.reg.names[k].token != record.token
    ensures key in a.reg.names && a.reg.names[key].token != "" ==> a.reg.names[key].token == record.token
  {
    forall k | k in a.reg.names && k != key ensures a.reg.names[k].token != record.token {
      if a.record.token == "" && a.reg.names[k].token != "" {
        assert r.names[k].token in r.tokens;
      }
    }
  }

  lemma CommitRecords(r: Registry, a: Absorbing, f: Frame, s: Supply, key: Key, record: Record)
    requires Inv(r) && Decided(r, a, key, f.enrollment) && GoodSupply(r, f, s)
    requires Sealed(a.record, s) == Ok(record)
    ensures NamesUnique(Written(a, key, record)) && TokensInverse(Written(a, key, record))
  {
    SealedToken(r, a, f, s, key, record);
    WrittenConsistent(a, key, f.enrollment, record);
  }

  lemma WrittenConsistent(a: Absorbing, key: Key, enrollment: string, record: Record)
    requires Cleared(a, key, enrollment) && record.token != "" && record.name == a.record.name
    requires record.enrollment == enrollment
    requires forall k :: k in a.reg.names && k != key ==> a.reg.names[k].token != record.token
    requires key in a.reg.names && a.reg.names[key].token != "" ==> a.reg.names[key].token == record.token
    ensures NamesUnique(Written(a, key, record)) && TokensInverse(Written(a, key, record))
  {
    var w := Written(a, key, record);
    forall t | t in w.tokens ensures t != "" && w.tokens[t] in w.names && w.names[w.tokens[t]].token == t {
      if t != record.token {
        assert t in a.reg.tokens;
      }
    }
    forall k | k in w.names && w.names[k].token != ""
      ensures w.names[k].token in w.tokens && w.tokens[w.names[k].token] == k
    {
      if k != key {
        assert a.reg.names[k].token in a.reg.tokens;
      }
    }
  }

  /** A successful commit in full. */
  lemma CommitShape(r: Registry, a: Absorbing, f: Frame, s: Supply, id: Identity, record: Record)
    requires Inv(r) && Decided(r, a, id.key, f.enrollment) && Sealed(a.record, s) == Ok(record) && s.saveOk
    ensures var w := Written(a, id.key, record);
            var slot := Slot(f.enrollment, record.name);
            Commit(a, f, s, id, record) ==
            (w.(heap := w.heap[s.conn := NewAdapter(f, id, record)],
                live := w.live[id.key := s.conn],
                byName := UnbindAll(w, a.reg.byName, a.displaced, record.name)[slot := s.conn]),
             Ok(s.conn))
  {
    HolderDisplaced(r, a, id.key, f.enrollment);
  }

  lemma CommitLive(r: Registry, a: Absorbing, f: Frame, s: Supply, id: Identity, record: Record, r': Registry)
    requires Inv(r) && Decided(r, a, id.key, f.enrollment) && GoodSupply(r, f, s)
    requires Sealed(a.record, s) == Ok(record) && s.saveOk && Commit(a, f, s, id, record).0 == r'
    ensures LiveRecorded(r')
  {
    CommitShape(r, a, f, s, id, record);
    forall k | k in r'.live ensures RecordedAs(r', k) {
      if k != id.key {
        assert RecordedAs(a.reg, k);
      }
    }
  }

  lemma CommitBound(r: Registry, a: Absorbing, f: Frame, s: Supply, id: Identity, record: Record, r': Registry)
    requires Inv(r) && Decided(r, a, id.key, f.enrollment) && GoodSupply(r, f, s)
    requires Sealed(a.record, s) == Ok(record) && s.saveOk && Commit(a, f, s, id, record).0 == r'
    ensures BoundExactly(r')
  {
    CommitShape(r, a, f, s, id, record);
    var w := Written(a, id.key, record);
    var slot := Slot(f.enrollment, record.name);
    var kept := UnbindAll(w, a.reg.byName, a.displaced, record.name);
    UnbindAllExact(w, a.reg.byName, a.displaced, record.name);
    forall k | k in a.reg.live && k != id.key ensures BoundUnder(r.heap, a.reg.live, kept, slot, k) {
      StillOwnName(r, a, f, id, k);
    }
    forall other | other in kept && other != slot ensures BindsLive(r.heap, a.reg.live, kept, id.key, other) {
      StillBound(r, a, f, id, kept, other);
    }
    BoundAfter(r', r.heap, a.reg.live, kept, id.key, s.conn, NewAdapter(f, id, record));
  }

  ghost predicate BoundUnder(heap: map<nat, Adapter>, live: map<Key, nat>, byName: map<Slot, nat>, slot: Slot, k: Key)
    requires k in live
  {
    live[k] in heap && SlotOf(heap[live[k]]) != slot
    && SlotOf(heap[live[k]]) in byName && byName[SlotOf(heap[live[k]])] == live[k]
  }

  ghost predicate BindsLive(heap: map<nat, Adapter>, live: map<Key, nat>, byName: map<Slot, nat>, key: Key, other: Slot)
    requires other in byName
  {
    byName[other] in heap && SlotOf(heap[byName[other]]) == other && heap[byName[other]].key != key
    && heap[byName[other]].key in live && live[heap[byName[other]].key] == byName[other]
  }

  /** Binding a new adapter for one identity over bindings that are exact for all the others. */
  lemma BoundAfter(
    r': Registry, heap: map<nat, Adapter>, live: map<Key, nat>, kept: map<Slot, nat>, key: Key, conn: nat, adapter: Adapter)
    requires conn !in heap && adapter.key == key
    requires forall k :: k in live && k != key ==> BoundUnder(heap, live, kept, SlotOf(adapter), k)
    requires forall other :: other in kept && other != SlotOf(adapter) ==> BindsLive(heap, live, kept, key, other)
    requires r'.heap == heap[conn := adapter] && r'.live == live[key := conn] && r'.byName == kept[SlotOf(adapter) := conn]
    ensures BoundExactly(r')
  {
    forall k | k in r'.live && r'.live[k] in r'.heap
      ensures SlotOf(r'.heap[r'.live[k]]) in r'.byName && r'.byName[SlotOf(r'.heap[r'.live[k]])] == r'.live[k]
    {
      if k != key {
        assert BoundUnder(heap, live, kept, SlotOf(adapter), k);
      }
    }
    forall other | other in r'.byName ensures BoundLive(r', other) {
      if other != SlotOf(adapter) {
        assert BindsLive(heap, live, kept, key, other);
      }
    }
  }

  /** A live adapter that was not displaced keeps its own binding, which is not the new one. */
  lemma StillOwnName(r: Registry, a: Absorbing, f: Frame, id: Identity, k: Key)
    requires Inv(r) && Decided(r, a, id.key, f.enrollment) && k in a.reg.live && k != id.key
    ensures k in r.live && r.live[k] == a.reg.live[k] && r.live[k] in r.heap && r.live[k] !in a.displaced
    ensures SlotOf(r.heap[r.live[k]]) in r.byName && r.byName[SlotOf(r.heap[r.live[k]])] == r.live[k]
    ensures SlotOf(r.heap[r.live[k]]) != Slot(f.enrollment, a.record.name)
  {
    assert RecordedAs(r, k) && RecordedAs(a.reg, k);
  }

  lemma CommitKeeps(r: Registry, a: Absorbing, f: Frame, s: Supply, id: Identity, record: Record)
    requires Inv(r) && Decided(r, a, id.key, f.enrollment) && GoodSupply(r, f, s)
    requires Sealed(a.record, s) == Ok(record) && s.saveOk
    ensures var (r', result) := Commit(a, f, s, id, record);
            result == Ok(s.conn) && Inv(r')
  {
    var r' := Commit(a, f, s, id, record).0;
    CommitShape(r, a, f, s, id, record);
    CommitRecords(r, a, f, s, id.key, record);
    CommitLive(r, a, f, s, id, record, r');
    CommitBound(r, a, f, s, id, record, r');
    SameRecords(Written(a, id.key, record), r');
  }

  lemma SameRecords(w: Registry, r': Registry)
    requires w.names == r'.names && w.tokens == r'.tokens && NamesUnique(w) && TokensInverse(w)
    ensures NamesUnique(r') && TokensInverse(r')
  {
  }

  /** A binding that survives belongs to an adapter that is still live. */
  lemma StillBound(r: Registry, a: Absorbing, f: Frame, id: Identity, kept: map<Slot, nat>, other: Slot)
    requires Inv(r) && Decided(r, a, id.key, f.enrollment) && other != Slot(f.enrollment, a.record.name)
    requires forall c :: c in a.displaced && c in r.heap && r.heap[c].name != a.record.name && SlotOf(r.heap[c]) in kept
               ==> kept[SlotOf(r.heap[c])] != c
    requires other in kept && other in r.byName && kept[other] == r.byName[other]
    ensures BoundLive(r, other)
    ensures r.heap[r.byName[other]].key in a.reg.live && r.heap[r.byName[other]].key != id.key
    ensures a.reg.live[r.heap[r.byName[other]].key] == r.byName[other]
  {
    var conn := r.byName[other];
    assert BoundLive(r, other);
    assert RecordedAs(r, r.heap[conn].key);
    assert conn in a.displaced ==> DisplacedAt(r, a, id.key, f.enrollment, conn);
  }

  // ---------------------------------------------------------------- registration as a whole

  /** The identity and the decided state a registration gets to, if it gets that far. */
  lemma RegisterDecides(r: Registry, f: Frame, s: Supply, order: seq<Key>)
    requires Inv(r) && GoodSupply(r, f, s) && IsOrder(r, order)
    ensures var id := Identify(r, f, s);
            id.Ok? && Named(r, f, s, id.value, order).Ok? ==>
              id.value.key.enrollment == f.enrollment
              && Decided(r, Named(r, f, s, id.value, order).value, id.value.key, f.enrollment)
  {
    var id := Identify(r, f, s);
    if id.Ok? && Named(r, f, s, id.value, order).Ok? {
      IdentifyFacts(r, f, s);
      NamedDecides(r, f, s, id.value, order);
    }
  }

  /** A registration that succeeds keeps every index exact, and the last `name_taken` refusal never happens. */
  lemma RegisterKeeps(r: Registry, f: Frame, s: Supply, order: seq<Key>)
    requires Inv(r) && GoodSupply(r, f, s) && IsOrder(r, order)
    ensures var (r', result) := Register(r, f, s, order);
            && (result.Ok? ==> result.value == s.conn && Inv(r'))
            && result != Err(NameHeldAtBind)
  {
    RegisterDecides(r, f, s, order);
    var id := Identify(r, f, s);
    if id.Ok? && Named(r, f, s, id.value, order).Ok? {
      FinishKeeps(r, Named(r, f, s, id.value, order).value, f, s, id.value);
    }
  }

  lemma FinishKeeps(r: Registry, a: Absorbing, f: Frame, s: Supply, id: Identity)
    requires Inv(r) && Decided(r, a, id.key, f.enrollment) && GoodSupply(r, f, s)
    ensures var (r', result) := Finish(a, f, s, id);
            && (result.Ok? ==> result.value == s.conn && Inv(r'))
            && result != Err(NameHeldAtBind)
  {
    var sealed := Sealed(a.record, s);
    if sealed.Ok? {
      HolderDisplaced(r, a, id.key, f.enrollment);
      if s.saveOk {
        CommitKeeps(r, a, f, s, id, sealed.value);
      }
    }
  }

  /** Live adapters a registration takes out of the indexes before anything can fail. */
  function Displaced(r: Registry, f: Frame, s: Supply, order: seq<Key>): seq<nat> {
    var id := Identify(r, f, s);
    if id.Err? then []
    else
      var named := Named(r, f, s, id.value, order);
      if named.Err? then [] else named.value.displaced
  }

  ghost predicate HoldsAnother(r: Registry, conns: seq<nat>, key: Key) {
    exists i :: 0 <= i < |conns| && conns[i] in r.heap && r.heap[conns[i]].key != key
  }

  /** Whether the name it takes over is live under another identity. */
  ghost predicate TakesOverLive(r: Registry, f: Frame, s: Supply, order: seq<Key>) {
    Identify(r, f, s).Ok? && HoldsAnother(r, Displaced(r, f, s, order), Identify(r, f, s).value.key)
  }

  /** Refused before anything is touched. */
  lemma EarlyRefusalChangesNothing(r: Registry, f: Frame, s: Supply, order: seq<Key>)
    ensures var (r', result) := Register(r, f, s, order);
            result.Err? && result.error !in {CapabilityFailed, TokenFailed, PersistenceFailed, NameHeldAtBind} ==> r' == r
  {
  }

  /** The absorbed state is exact again exactly when absorption took no live adapter. */
  lemma AbsorbedExact(r: Registry, a: Absorbing, key: Key, enrollment: string)
    requires Inv(r) && Decided(r, a, key, enrollment)
    ensures Inv(a.reg) <==> a.reg.live == r.live
    ensures a.reg.live == r.live <==> forall i :: 0 <= i < |a.displaced| ==> a.displaced[i] in r.heap && r.heap[a.displaced[i]].key == key
  {
    if k :| k in r.live && k !in a.reg.live {
      assert RecordedAs(r, k);
      assert !BoundLive(a.reg, SlotOf(r.heap[r.live[k]]));
      assert r.live[k] in a.displaced;
    } else {
      assert a.reg.live == r.live;
      forall slot | slot in a.reg.byName ensures BoundLive(a.reg, slot) {
        assert BoundLive(r, slot);
      }
      forall i | 0 <= i < |a.displaced| ensures a.displaced[i] in r.heap && r.heap[a.displaced[i]].key == key {
        assert DisplacedAt(r, a, key, enrollment, a.displaced[i]);
      }
    }
  }

  /**
   A registration that fails late does not put back what it absorbed. Failing to
   draw a credential leaves the indexes exact exactly when no live adapter of
   another identity was taken over; failing to save, exactly when none was
   displaced at all.
   */
  lemma LateFailureExact(r: Registry, f: Frame, s: Supply, order: seq<Key>)
    requires Inv(r) && GoodSupply(r, f, s) && IsOrder(r, order)
    ensures var (r', result) := Register(r, f, s, order);
            && (result.Err? && result.error in {CapabilityFailed, TokenFailed} ==>
                  (Inv(r') <==> !TakesOverLive(r, f, s, order)))
            && (result.Err? && result.error == PersistenceFailed ==>
                  (Inv(r') <==> Displaced(r, f, s, order) == []))
  {
    RegisterDecides(r, f, s, order);
    var id := Identify(r, f, s);
    if id.Ok? && Named(r, f, s, id.value, order).Ok? {
      FinishFailureExact(r, Named(r, f, s, id.value, order).value, f, s, id.value);
    }
  }

  lemma FinishFailureExact(r: Registry, a: Absorbing, f: Frame, s: Supply, id: Identity)
    requires Inv(r) && Decided(r, a, id.key, f.enrollment) && GoodSupply(r, f, s)
    ensures var (r', result) := Finish(a, f, s, id);
            && (result.Err? && result.error in {CapabilityFailed, TokenFailed} ==>
                  (Inv(r') <==> !HoldsAnother(r, a.displaced, id.key)))
            && (result.Err? && result.error == PersistenceFailed ==> (Inv(r') <==> a.displaced == []))
  {
    DisplacedInHeap(r, a, id.key, f.enrollment);
    if Sealed(a.record, s).Err? {
      AbsorbedExact(r, a, id.key, f.enrollment);
    } else {
      UnsavedExact(r, a, f, s, id.key, Sealed(a.record, s).value);
    }
  }

  lemma DisplacedInHeap(r: Registry, a: Absorbing, key: Key, enrollment: string)
    requires Displaces(r, a, key, enrollment)
    ensures forall i :: 0 <= i < |a.displaced| ==> a.displaced[i] in r.heap
  {
    forall i | 0 <= i < |a.displaced| ensures a.displaced[i] in r.heap {
      assert DisplacedAt(r, a, key, enrollment, a.displaced[i]);
    }
  }

  lemma UnsavedExact(r: Registry, a: Absorbing, f: Frame, s: Supply, key: Key, record: Record)
    requires Inv(r) && Decided(r, a, key, f.enrollment) && GoodSupply(r, f, s) && Sealed(a.record, s) == Ok(record)
    ensures Inv(Written(a, key, record)) <==> a.displaced == []
  {
    if a.displaced == [] {
      CommitRecords(r, a, f, s, key, record);
      AbsorbedExact(r, a, key, f.enrollment);
      UnsavedKeeps(r, a, f, key, record);
    } else {
      UnsavedBreaks(r, a, f, s, key, record);
    }
  }

  lemma UnsavedKeeps(r: Registry, a: Absorbing, f: Frame, key: Key, record: Record)
    requires Inv(a.reg) && a.reg.live == r.live && Shrunk(r, a, key, f.enrollment) && a.displaced == []
    requires NamesUnique(Written(a, key, record)) && TokensInverse(Written(a, key, record))
    ensures Inv(Written(a, key, record))
  {
    var w := Written(a, key, record);
    assert key !in r.live;
    forall k | k in w.live ensures RecordedAs(w, k) {
      assert RecordedAs(a.reg, k);
    }
    forall slot | slot in w.byName ensures BoundLive(w, slot) {
      assert BoundLive(a.reg, slot);
    }
  }

  lemma UnsavedBreaks(r: Registry, a: Absorbing, f: Frame, s: Supply, key: Key, record: Record)
    requires Inv(r) && Decided(r, a, key, f.enrollment) && Sealed(a.record, s) == Ok(record) && a.displaced != []
    ensures !Inv(Written(a, key, record))
  {
    var w := Written(a, key, record);
    var conn := a.displaced[0];
    assert DisplacedAt(r, a, key, f.enrollment, conn);
    if r.heap[conn].key == key {
      assert RecordedAs(r, key);
      assert key in a.reg.live && !RecordedAs(w, key);
    } else {
      assert RecordedAs(r, r.heap[conn].key);
      assert !BoundLive(w, SlotOf(r.heap[conn]));
    }
  }

  /** The new generation is strictly above every record the registration supersedes. */
  lemma RegisterSupersedes(r: Registry, f: Frame, s: Supply, order: seq<Key>)
    requires Inv(r) && GoodSupply(r, f, s) && IsOrder(r, order) && Register(r, f, s, order).1.Ok?
    ensures var r' := Register(r, f, s, order).0;
            s.conn in r'.heap
            && forall k :: k in r.names && (k == r'.heap[s.conn].key || k !in r'.names) ==>
                             r.names[k].generation < r'.heap[s.conn].generation
  {
    RegisterDecides(r, f, s, order);
    var id := Identify(r, f, s).value;
    var a := Named(r, f, s, id, order).value;
    CommitShape(r, a, f, s, id, Sealed(a.record, s).value);
  }

  /** A record's credential never changes while the record exists, whatever the outcome. */
  lemma RegisterKeepsTokens(r: Registry, f: Frame, s: Supply, order: seq<Key>, k: Key)
    requires Inv(r) && GoodSupply(r, f, s) && IsOrder(r, order)
    requires k in r.names && r.names[k].token != "" && k in Register(r, f, s, order).0.names
    ensures Register(r, f, s, order).0.names[k].token == r.names[k].token
  {
    RegisterDecides(r, f, s, order);
    var id := Identify(r, f, s);
    if id.Ok? && Named(r, f, s, id.value, order).Ok? {
      var a := Named(r, f, s, id.value, order).value;
      if Sealed(a.record, s).Ok? {
        HolderDisplaced(r, a, id.value.key, f.enrollment);
      }
    }
  }

  /**
   Which name a registration ends with: a declared one counts as chosen, a chosen one
   stands until another is declared, and an invented one remains only while the pane
   shows no other.
   */
  lemma ChosenNamesStand(r: Registry, f: Frame, s: Supply, order: seq<Key>)
    requires Inv(r) && GoodSupply(r, f, s) && IsOrder(r, order) && Register(r, f, s, order).1.Ok?
    ensures var r' := Register(r, f, s, order).0;
            s.conn in r'.heap && r'.heap[s.conn].key in r'.names
    ensures var r' := Register(r, f, s, order).0;
            var key := r'.heap[s.conn].key;
            var record := r'.names[key];
            && (Identify(r, f, s).value.name != "" ==> record.name == Identify(r, f, s).value.name && record.namedBy == ByUser)
            && (Identify(r, f, s).value.name == "" && key in r.names && r.names[key].namedBy != ByAuto ==>
                  record.name == r.names[key].name && record.namedBy == r.names[key].namedBy)
            && (record.namedBy == ByAuto ==> s.paneName == "" || s.paneName == record.name)
  {
    RegisterDecides(r, f, s, order);
    var id := Identify(r, f, s).value;
    var a := Named(r, f, s, id, order).value;
    NamedByAuthority(r, f, s, id, order);
    CommitShape(r, a, f, s, id, Sealed(a.record, s).value);
  }

  lemma NamedByAuthority(r: Registry, f: Frame, s: Supply, id: Identity, order: seq<Key>)
    requires Named(r, f, s, id, order).Ok?
    ensures var record := Named(r, f, s, id, order).value.record;
            && (id.name != "" ==> record.name == id.name && record.namedBy == ByUser)
            && (id.name == "" && id.key in r.names && r.names[id.key].namedBy != ByAuto ==>
                  record.name == r.names[id.key].name && record.namedBy == r.names[id.key].namedBy)
            && (record.namedBy == ByAuto ==> s.paneName == "" || s.paneName == record.name)
  {
  }

  /** A connection displaced by a registration changes nothing when it finally closes. */
  lemma DisplacedDepartureIsSilent(r: Registry, f: Frame, s: Supply, order: seq<Key>, conn: nat)
    requires Inv(r) && GoodSupply(r, f, s) && IsOrder(r, order) && Register(r, f, s, order).1.Ok?
    requires conn in Displaced(r, f, s, order)
    ensures var r' := Register(r, f, s, order).0;
            Deregister(r', conn) == r'
  {
    RegisterDecides(r, f, s, order);
    var id := Identify(r, f, s).value;
    var a := Named(r, f, s, id, order).value;
    CommitShape(r, a, f, s, id, Sealed(a.record, s).value);
    var i :| 0 <= i < |a.displaced| && a.displaced[i] == conn;
    assert DisplacedAt(r, a, id.key, f.enrollment, a.displaced[i]);
  }

  // ---------------------------------------------------------------- rename, reconcile, deregister

  lemma DeregisterKeeps(r: Registry, conn: nat)
    requires Inv(r)
    ensures Inv(Deregister(r, conn))
  {
    var r' := Deregister(r, conn);
    if r' != r {
      assert RecordedAs(r, r.heap[conn].key);
      forall k | k in r'.live ensures RecordedAs(r', k) && SlotOf(r.heap[r.live[k]]) != SlotOf(r.heap[conn]) {
        assert RecordedAs(r, k);
      }
      forall slot | slot in r'.byName ensures BoundLive(r', slot) {
        assert BoundLive(r, slot);
      }
    }
  }

  /** A departure is felt exactly when the connection is still the live one of its identity. */
  lemma DeregisterExact(r: Registry, conn: nat)
    requires Inv(r)
    ensures Deregister(r, conn) != r <==> conn in r.heap && r.heap[conn].key in r.live && r.live[r.heap[conn].key] == conn
    ensures Deregister(r, conn).names == r.names && Deregister(r, conn).tokens == r.tokens
  {
  }

  lemma RenameRecords(r: Registry, conn: nat, name: string, namedBy: NamedBy, saveOk: bool)
    requires Inv(r) && Rename(r, conn, name, namedBy, saveOk).1.None?
    ensures var r' := Rename(r, conn, name, namedBy, saveOk).0;
            NamesUnique(r') && TokensInverse(r') && LiveRecorded(r')
  {
    var r' := Rename(r, conn, name, namedBy, saveOk).0;
    assert RecordedAs(r, r.heap[conn].key);
    forall k | k in r'.live ensures RecordedAs(r', k) {
      assert RecordedAs(r, k);
    }
  }

  lemma RenameBound(r: Registry, conn: nat, name: string, namedBy: NamedBy, saveOk: bool)
    requires Inv(r) && Rename(r, conn, name, namedBy, saveOk).1.None?
    ensures BoundExactly(Rename(r, conn, name, namedBy, saveOk).0)
  {
    var r' := Rename(r, conn, name, namedBy, saveOk).0;
    var a := r.heap[conn];
    assert RecordedAs(r, a.key);
    forall k | k in r'.live && r'.live[k] in r'.heap
      ensures SlotOf(r'.heap[r'.live[k]]) in r'.byName && r'.byName[SlotOf(r'.heap[r'.live[k]])] == r'.live[k]
    {
      assert RecordedAs(r, k);
    }
    forall slot | slot in r'.byName ensures BoundLive(r', slot) {
      if slot != Slot(a.enrollment, name) {
        assert BoundLive(r, slot);
      }
    }
  }

  /** A rename keeps every index exact, raises the generation and leaves the credential; a refused or unsaved one changes nothing. */
  lemma RenameKeeps(r: Registry, conn: nat, name: string, namedBy: NamedBy, saveOk: bool)
    requires Inv(r)
    ensures var (r', error) := Rename(r, conn, name, namedBy, saveOk);
            && Inv(r')
            && (error.Some? ==> r' == r)
            && (error.None? ==>
                  var k := r.heap[conn].key;
                  && k in r.names && k in r'.names
                  && r'.names[k].name == name
                  && r'.heap[conn].generation == r'.names[k].generation == r.names[k].generation + 1
                  && r'.names[k].token == r.names[k].token
                  && r'.tokens == r.tokens)
  {
    if Rename(r, conn, name, namedBy, saveOk).1.None? {
      assert RecordedAs(r, r.heap[conn].key);
      RenameRecords(r, conn, name, namedBy, saveOk);
      RenameBound(r, conn, name, namedBy, saveOk);
    }
  }

  /** A claim is refused as taken exactly when another record of the organization has the name. */
  lemma RenameTakenExact(r: Registry, conn: nat, name: string, namedBy: NamedBy, saveOk: bool)
    requires Inv(r) && conn in r.heap && r.heap[conn].key in r.live && r.live[r.heap[conn].key] == conn
    ensures Rename(r, conn, name, namedBy, saveOk).1 == Some(NameClaimed) <==>
            exists k :: k in r.names && k != r.heap[conn].key && k.enrollment == r.heap[conn].enrollment && r.names[k].name == name
  {
    var slot := Slot(r.heap[conn].enrollment, name);
    assert RecordedAs(r, r.heap[conn].key);
    if slot in r.byName {
      assert BoundLive(r, slot);
      assert RecordedAs(r, r.heap[r.byName[slot]].key);
    }
  }

  // ---------------------------------------------------------------- organizations are isolated

  /** Everything the registry knows about one organization is the same. */
  ghost predicate SameFor(r: Registry, r': Registry, enrollment: string) {
    && (forall k: Key :: k.enrollment == enrollment ==> (k in r.names <==> k in r'.names) && (k in r.names ==> r.names[k] == r'.names[k]))
    && (forall k: Key :: k.enrollment == enrollment ==> (k in r.live <==> k in r'.live) && (k in r.live ==> r.live[k] == r'.live[k]))
    && (forall slot: Slot :: slot.enrollment == enrollment ==>
          (slot in r.byName <==> slot in r'.byName) && (slot in r.byName ==> r.byName[slot] == r'.byName[slot]))
    && (forall t :: (t in r.tokens && r.tokens[t].enrollment == enrollment) <==> (t in r'.tokens && r'.tokens[t].enrollment == enrollment))
    && (forall t :: t in r.tokens && r.tokens[t].enrollment == enrollment ==> r'.tokens[t] == r.tokens[t])
    && (forall c :: c in r.heap && r.heap[c].enrollment == enrollment ==> c in r'.heap && r'.heap[c] == r.heap[c])
  }

  /** Absorption stays within the organization of the frame. */
  lemma AbsorbedIsolated(r: Registry, a: Absorbing, key: Key, enrollment: string, other: string)
    requires Inv(r) && Decided(r, a, key, enrollment) && other != enrollment
    ensures SameFor(r, a.reg, other)
  {
    assert forall k: Key :: k.enrollment == other && k in r.names ==> k in a.reg.names;
    forall k: Key | k.enrollment == other && k in r.live ensures k in a.reg.live {
      assert RecordedAs(r, k);
    }
  }

  lemma SameForTransitive(r: Registry, r': Registry, r'': Registry, enrollment: string)
    requires SameFor(r, r', enrollment) && SameFor(r', r'', enrollment)
    ensures SameFor(r, r'', enrollment)
  {
  }

  /** Writing a record and its token touches one organization. */
  lemma WritingIsolated(a: Absorbing, key: Key, record: Record, other: string)
    requires key.enrollment != other
    requires record.token in a.reg.tokens ==> a.reg.tokens[record.token].enrollment != other
    ensures SameFor(a.reg, Written(a, key, record), other)
  {
  }

  lemma WrittenIsolated(r: Registry, a: Absorbing, f: Frame, s: Supply, key: Key, record: Record, other: string)
    requires Inv(r) && Decided(r, a, key, f.enrollment) && GoodSupply(r, f, s) && other != f.enrollment
    requires Sealed(a.record, s) == Ok(record)
    ensures SameFor(r, Written(a, key, record), other)
  {
    AbsorbedIsolated(r, a, key, f.enrollment, other);
    SealedToken(r, a, f, s, key, record);
    if record.token in a.reg.tokens {
      assert a.reg.names[a.reg.tokens[record.token]].token == record.token;
    }
    WritingIsolated(a, key, record, other);
    SameForTransitive(r, a.reg, Written(a, key, record), other);
  }

  lemma CommitIsolated(r: Registry, a: Absorbing, f: Frame, s: Supply, id: Identity, record: Record, other: string)
    requires Inv(r) && Decided(r, a, id.key, f.enrollment) && GoodSupply(r, f, s) && other != f.enrollment
    requires Sealed(a.record, s) == Ok(record) && s.saveOk
    ensures SameFor(r, Commit(a, f, s, id, record).0, other)
  {
    WrittenIsolated(r, a, f, s, id.key, record, other);
    CommitShape(r, a, f, s, id, record);
    UnbindAllExact(Written(a, id.key, record), a.reg.byName, a.displaced, record.name);
    forall slot: Slot | slot.enrollment == other && slot in r.byName
      ensures slot in UnbindAll(Written(a, id.key, record), a.reg.byName, a.displaced, record.name)
    {
      assert BoundLive(r, slot);
    }
  }

  lemma FinishIsolated(r: Registry, a: Absorbing, f: Frame, s: Supply, id: Identity, other: string)
    requires Inv(r) && Decided(r, a, id.key, f.enrollment) && GoodSupply(r, f, s) && other != f.enrollment
    ensures SameFor(r, Finish(a, f, s, id).0, other)
  {
    AbsorbedIsolated(r, a, id.key, f.enrollment, other);
    if Sealed(a.record, s).Ok? {
      var record := Sealed(a.record, s).value;
      WrittenIsolated(r, a, f, s, id.key, record, other);
      if s.saveOk {
        CommitIsolated(r, a, f, s, id, record, other);
      }
    }
  }

  /** A registration for one organization, whatever it presents and however it ends, leaves every other organization as it was. */
  lemma RegisterIsolated(r: Registry, f: Frame, s: Supply, order: seq<Key>, other: string)
    requires Inv(r) && GoodSupply(r, f, s) && IsOrder(r, order) && other != f.enrollment
    ensures SameFor(r, Register(r, f, s, order).0, other)
  {
    RegisterDecides(r, f, s, order);
    var id := Identify(r, f, s);
    if id.Ok? && Named(r, f, s, id.value, order).Ok? {
      FinishIsolated(r, Named(r, f, s, id.value, order).value, f, s, id.value, other);
    }
  }

  lemma RenameIsolated(r: Registry, conn: nat, name: string, namedBy: NamedBy, saveOk: bool, other: string)
    requires Inv(r) && (conn in r.heap ==> r.heap[conn].enrollment != other)
    ensures SameFor(r, Rename(r, conn, name, namedBy, saveOk).0, other)
  {
    if Rename(r, conn, name, namedBy, saveOk).1.None? {
      assert RecordedAs(r, r.heap[conn].key);
    }
  }

  lemma DeregisterIsolated(r: Registry, conn: nat, other: string)
    requires Inv(r) && (conn in r.heap ==> r.heap[conn].enrollment != other)
    ensures SameFor(r, Deregister(r, conn), other)
  {
    if Deregister(r, conn) != r {
      assert RecordedAs(r, r.heap[conn].key);
    }
  }

  /** A credential of another organization identifies nobody here: the frame is treated as if it presented none. */
  lemma ForeignTokenIgnored(r: Registry, f: Frame)
    requires Inv(r) && f.token in r.tokens && r.tokens[f.token].enrollment != f.enrollment
    ensures ResolveKey(r, f) == ResolveKey(r, f.(token := ""))
    ensures ResolveKey(r, f).0.enrollment == f.enrollment
  {
  }

  // ---------------------------------------------------------------- runs

  datatype RegistryOp =
    | DoRegister(frame: Frame, supply: Supply, order: seq<Key>)
    | DoRename(conn: nat, name: string, namedBy: NamedBy, saveOk: bool)
    | DoReconcile(conn: nat, paneName: string, saveOk: bool)
    | DoDeregister(conn: nat)

  /** Credential generation and persistence succeed whenever a registration gets that far. */
  ghost predicate Legal(r: Registry, op: RegistryOp) {
    op.DoRegister? ==>
      && GoodSupply(r, op.frame, op.supply) && IsOrder(r, op.order)
      && op.supply.capabilityOk && op.supply.token.Some? && op.supply.saveOk
  }

  function Apply(r: Registry, op: RegistryOp): Registry {
    match op
    case DoRegister(f, s, order) => Register(r, f, s, order).0
    case DoRename(conn, name, namedBy, saveOk) => Rename(r, conn, name, namedBy, saveOk).0
    case DoReconcile(conn, paneName, saveOk) => Reconcile(r, conn, paneName, saveOk)
    case DoDeregister(conn) => Deregister(r, conn)
  }

  ghost predicate LegalRun(r: Registry, ops: seq<RegistryOp>)
    decreases |ops|
  {
    ops == [] || (Legal(r, ops[0]) && LegalRun(Apply(r, ops[0]), ops[1..]))
  }

  ghost function Run(r: Registry, ops: seq<RegistryOp>): Registry
    decreases |ops|
  {
    if ops == [] then r else Run(Apply(r, ops[0]), ops[1..])
  }

  lemma StepKeeps(r: Registry, op: RegistryOp)
    requires Inv(r) && Legal(r, op)
    ensures Inv(Apply(r, op))
  {
    match op
    case DoRegister(f, s, order) =>
      RegisterKeeps(r, f, s, order);
      EarlyRefusalChangesNothing(r, f, s, order);
    case DoRename(conn, name, namedBy, saveOk) => RenameKeeps(r, conn, name, namedBy, saveOk);
    case DoReconcile(conn, paneName, saveOk) => RenameKeeps(r, conn, paneName, ByHerdr, saveOk);
    case DoDeregister(conn) => DeregisterKeeps(r, conn);
  }

  /** In every reachable registry names are unique, tokens invert the records, and bindings are exactly the live adapters. */
  lemma {:induction false} RunKeeps(r: Registry, ops: seq<RegistryOp>)
    requires Inv(r) && LegalRun(r, ops)
    ensures Inv(Run(r, ops))
    decreases |ops|
  {
    if ops != [] {
      StepKeeps(r, ops[0]);
      RunKeeps(Apply(r, ops[0]), ops[1..]);
    }
  }

  lemma ReachableRegistry(ops: seq<RegistryOp>)
    requires LegalRun(EMPTY, ops)
    ensures Inv(Run(EMPTY, ops))
  {
    RunKeeps(EMPTY, ops);
  }

  // ---------------------------------------------------------------- a displaced connection, whenever it closes

  /** An adapter that was registered and is the live one of no identity. */
  predicate LiveNowhere(r: Registry, conn: nat) {
    conn in r.heap && forall k :: k in r.live ==> r.live[k] != conn
  }

  lemma {:induction false} AbsorbOnlyRemoves(a: Absorbing, key: Key, name: string, enrollment: string, order: seq<Key>)
    ensures var a' := Absorb(a, key, name, enrollment, order);
            && a'.reg.heap == a.reg.heap
            && forall k :: k in a'.reg.live ==> k in a.reg.live && a'.reg.live[k] == a.reg.live[k]
  {
    if order != [] {
      AbsorbOnlyRemoves(a, key, name, enrollment, order[..|order| - 1]);
    }
  }

  lemma NamedOnlyRemoves(r: Registry, f: Frame, s: Supply, id: Identity, order: seq<Key>)
    requires Named(r, f, s, id, order).Ok?
    ensures var a := Named(r, f, s, id, order).value;
            && a.reg.heap == r.heap
            && forall k :: k in a.reg.live ==> k in r.live && a.reg.live[k] == r.live[k]
  {
    var start := Start(r, id.key, f.enrollment);
    AbsorbOnlyRemoves(start, id.key, id.name, f.enrollment, order);
    AbsorbOnlyRemoves(start, id.key, s.paneName, f.enrollment, order);
  }

  lemma FinishMakesOwnLive(a: Absorbing, f: Frame, s: Supply, id: Identity)
    ensures var r' := Finish(a, f, s, id).0;
            && (forall c :: c in a.reg.heap ==> c in r'.heap)
            && forall k :: k in r'.live ==> r'.live[k] == s.conn || (k in a.reg.live && r'.live[k] == a.reg.live[k])
  {
  }

  /** Whatever comes of a registration, the only adapter it can make live is its own. */
  lemma RegisterMakesOwnLive(r: Registry, f: Frame, s: Supply, order: seq<Key>)
    ensures var r' := Register(r, f, s, order).0;
            && (forall c :: c in r.heap ==> c in r'.heap)
            && forall k :: k in r'.live ==> r'.live[k] == s.conn || (k in r.live && r'.live[k] == r.live[k])
  {
    var id := Identify(r, f, s);
    if id.Ok? && Named(r, f, s, id.value, order).Ok? {
      NamedOnlyRemoves(r, f, s, id.value, order);
      FinishMakesOwnLive(Named(r, f, s, id.value, order).value, f, s, id.value);
    }
  }

  lemma DisplacedIsNowhere(r: Registry, f: Frame, s: Supply, order: seq<Key>, conn: nat)
    requires Inv(r) && GoodSupply(r, f, s) && IsOrder(r, order) && Register(r, f, s, order).1.Ok?
    requires conn in Displaced(r, f, s, order)
    ensures LiveNowhere(Register(r, f, s, order).0, conn)
  {
    RegisterDecides(r, f, s, order);
    RegisterKeeps(r, f, s, order);
    RegisterMakesOwnLive(r, f, s, order);
    var r' := Register(r, f, s, order).0;
    var id := Identify(r, f, s).value;
    var a := Named(r, f, s, id, order).value;
    DisplacedInHeap(r, a, id.key, f.enrollment);
    DisplacedDepartureIsSilent(r, f, s, order, conn);
    forall k | k in r'.live ensures r'.live[k] != conn {
      assert RecordedAs(r', k);
    }
  }

  // ---------------------------------------------------------------- a reconnect whose save fails

  const CLEM: Frame := Frame(true, false, true, true, "acme", "session", "clem", "", "")
  const CLEM_KEY: Key := NameKey("acme", "clem")
  const FIRST_TIME: Supply := Supply(1, "", None, true, Some("token"), true)
  const SAVE_FAILS: Supply := Supply(2, "", None, true, Some("another"), false)

  lemma ClemRegistered()
    ensures GoodSupply(EMPTY, CLEM, FIRST_TIME) && IsOrder(EMPTY, [])
    ensures var (r, result) := Register(EMPTY, CLEM, FIRST_TIME, []);
            && result == Ok(1) && Inv(r)
            && r.names == map[CLEM_KEY := Record("clem", ByUser, 1, "token", "acme")] && r.live == map[CLEM_KEY := 1]
            && r.tokens == map["token" := CLEM_KEY] && r.byName == map[Slot("acme", "clem") := 1]
            && r.heap == map[1 := Adapter(CLEM_KEY, "acme", "session", "", "clem", ByUser, 1, "token")]
  {
    RegisterKeeps(EMPTY, CLEM, FIRST_TIME, []);
  }

  const CLEM_RECORD: Record := Record("clem", ByUser, 1, "token", "acme")

  lemma ClemNamedAgain(r: Registry)
    requires r.names == map[CLEM_KEY := CLEM_RECORD] && r.live == map[CLEM_KEY := 1]
    ensures Named(r, CLEM, SAVE_FAILS, Identity(CLEM_KEY, ByName, "clem"), [CLEM_KEY]) == Ok(Absorbing(r, CLEM_RECORD, [1]))
  {
    var start := Absorbing(r, CLEM_RECORD, [1]);
    assert [CLEM_KEY][..0] == [] && |"clem"| == 4;
    assert Absorb(start, CLEM_KEY, "clem", "acme", [CLEM_KEY]) == start;
  }

  lemma ClemIdentified(r: Registry)
    requires Slot("acme", "clem") in r.byName && r.byName[Slot("acme", "clem")] == 1
    requires 1 in r.heap && r.heap[1].session == "session"
    ensures Identify(r, CLEM, SAVE_FAILS) == Ok(Identity(CLEM_KEY, ByName, "clem"))
  {
  }

  lemma ClemUnsaved(r: Registry)
    requires Slot("acme", "clem") in r.byName && r.byName[Slot("acme", "clem")] == 1
    ensures Finish(Absorbing(r, CLEM_RECORD, [1]), CLEM, SAVE_FAILS, Identity(CLEM_KEY, ByName, "clem")) ==
            (r.(names := r.names[CLEM_KEY := CLEM_RECORD.(generation := 2)], tokens := r.tokens["token" := CLEM_KEY]), Err(PersistenceFailed))
  {
  }

  /** It does happen: the agent reconnects and the save fails; the live adapter is a generation behind its record. */
  lemma ReconnectWithFailedSave()
    ensures var r := Register(EMPTY, CLEM, FIRST_TIME, []).0;
            var (r', result) := Register(r, CLEM, SAVE_FAILS, [CLEM_KEY]);
            && Inv(r) && GoodSupply(r, CLEM, SAVE_FAILS) && IsOrder(r, [CLEM_KEY])
            && result == Err(PersistenceFailed) && !Inv(r')
            && CLEM_KEY in r'.live && r'.live[CLEM_KEY] == 1 && 1 in r'.heap && r'.heap[1].generation == 1
            && CLEM_KEY in r'.names && r'.names[CLEM_KEY].generation == 2
  {
    ClemRegistered();
    var r := Register(EMPTY, CLEM, FIRST_TIME, []).0;
    ClemIdentified(r);
    ClemNamedAgain(r);
    ClemUnsaved(r);
    var r' := Register(r, CLEM, SAVE_FAILS, [CLEM_KEY]).0;
    assert CLEM_KEY in r'.live && !RecordedAs(r', CLEM_KEY);
  }
}
