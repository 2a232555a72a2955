/**
 When a registration can be refused because its name is still bound just before the
 records are written (daemon/adapter.go). In a registry whose bindings are all backed by
 a live, recorded adapter it cannot; a registration that fails late can leave a binding
 behind that nobody backs, and nothing takes it away again.
 */
module RegistryBindings {
  import opened Common
  import opened RegistryModel
  import opened RegistryLaws
  import opened RegistryRecords

  /** Every binding is of an adapter under the name that adapter carries. */
  ghost predicate Bindings(r: Registry) {
    forall slot :: slot in r.byName ==> slot.name != "" && r.byName[slot] in r.heap && SlotOf(r.heap[r.byName[slot]]) == slot
  }

  ghost predicate Spelled(r: Registry) {
    forall k :: k in r.names ==> r.names[k].name != ""
  }

  ghost predicate Sound(r: Registry) {
    Durable(r) && Bindings(r) && Spelled(r)
  }

  /** The bound adapter is the live one of its identity, whose record has the name. */
  predicate BackedAt(r: Registry, slot: Slot)
    requires slot in r.byName && r.byName[slot] in r.heap
  {
    var k := r.heap[r.byName[slot]].key;
    k in r.live && r.live[k] == r.byName[slot] && k in r.names && r.names[k].name == slot.name
  }

  ghost predicate Backed(r: Registry)
    requires Bindings(r)
  {
    forall slot :: slot in r.byName ==> BackedAt(r, slot)
  }

  /** Names drawn from outside are not blank. */
  ghost predicate Sensible(r: Registry, op: RegistryOp) {
    && Possible(r, op)
    && match op
       case DoRegister(_, s, _) => s.autoName != Some("")
       case DoRename(_, name, _, _) => name != ""
       case DoReconcile(_, paneName, _) => paneName != ""
       case DoDeregister(_) => true
  }

  // ---------------------------------------------------------------- what deciding a name comes to

  predicate HasName(r: Registry, k: Key, enrollment: string, name: string) {
    k in r.names && k.enrollment == enrollment && r.names[k].name == name
  }

  /** Other records of the name are gone, with their live adapters, and those and the identity's own are displaced. */
  ghost predicate Folds(r: Registry, a: Absorbing, key: Key, enrollment: string) {
    FoldsRecords(r, a, key, enrollment) && FoldsLive(r, a, key, enrollment) && FoldsDisplaced(r, a, key, enrollment)
  }

  ghost predicate FoldsRecords(r: Registry, a: Absorbing, key: Key, enrollment: string) {
    && a.reg.heap == r.heap && a.reg.byName == r.byName && a.record.enrollment == enrollment
    && (forall k :: k in a.reg.names <==> k in r.names && (k == key || !HasName(r, k, enrollment, a.record.name)))
    && (forall k :: k in a.reg.names ==> a.reg.names[k] == r.names[k])
  }

  ghost predicate FoldsLive(r: Registry, a: Absorbing, key: Key, enrollment: string) {
    && (forall k :: k in a.reg.live <==> k in r.live && (k == key || !HasName(r, k, enrollment, a.record.name)))
    && (forall k :: k in a.reg.live ==> a.reg.live[k] == r.live[k])
  }

  ghost predicate FoldsDisplaced(r: Registry, a: Absorbing, key: Key, enrollment: string) {
    && (forall k :: k in r.live && (k == key || HasName(r, k, enrollment, a.record.name)) ==> r.live[k] in a.displaced)
    && (forall i :: 0 <= i < |a.displaced| ==> DisplacedFor(r, a.displaced[i], key, enrollment, a.record.name))
  }

  predicate DisplacedFor(r: Registry, conn: nat, key: Key, enrollment: string, name: string) {
    && conn in r.heap && r.heap[conn].key in r.live && r.live[r.heap[conn].key] == conn
    && (r.heap[conn].key == key || HasName(r, r.heap[conn].key, enrollment, name))
  }

  lemma StartFolds(r: Registry, key: Key, enrollment: string, name: string, namedBy: NamedBy)
    requires Durable(r) && key.enrollment == enrollment
    requires forall k :: k != key ==> !HasName(r, k, enrollment, name)
    ensures Folds(r, WithName(Start(r, key, enrollment), name, namedBy), key, enrollment)
  {
  }

  /** The identity once a rival of its name has been absorbed, under that name. */
  function WithRival(r: Registry, key: Key, enrollment: string, name: string, namedBy: NamedBy, rival: Key): Absorbing {
    WithName(AbsorbOne(Start(r, key, enrollment), key, name, enrollment, rival), name, namedBy)
  }

  lemma RivalFoldsRecords(r: Registry, key: Key, enrollment: string, name: string, namedBy: NamedBy, rival: Key)
    requires Durable(r) && key.enrollment == enrollment && Absorbs(r.names, rival, key, name, enrollment)
    ensures FoldsRecords(r, WithRival(r, key, enrollment, name, namedBy, rival), key, enrollment)
  {
    assert forall k :: k != key ==> (HasName(r, k, enrollment, name) <==> k == rival);
  }

  lemma RivalFoldsLive(r: Registry, key: Key, enrollment: string, name: string, namedBy: NamedBy, rival: Key)
    requires Durable(r) && key.enrollment == enrollment && Absorbs(r.names, rival, key, name, enrollment)
    ensures FoldsLive(r, WithRival(r, key, enrollment, name, namedBy, rival), key, enrollment)
  {
    assert forall k :: k != key ==> (HasName(r, k, enrollment, name) <==> k == rival);
  }

  lemma RivalFoldsDisplaced(r: Registry, key: Key, enrollment: string, name: string, namedBy: NamedBy, rival: Key)
    requires Durable(r) && key.enrollment == enrollment && Absorbs(r.names, rival, key, name, enrollment)
    ensures FoldsDisplaced(r, WithRival(r, key, enrollment, name, namedBy, rival), key, enrollment)
  {
    var a := WithRival(r, key, enrollment, name, namedBy, rival);
    var own := if key in r.live then [r.live[key]] else [];
    var theirs := if rival in r.live then [r.live[rival]] else [];
    assert a.displaced == own + theirs;
    forall k | k in r.live && (k == key || HasName(r, k, enrollment, name)) ensures r.live[k] in a.displaced {
      assert k == key || k == rival;
    }
  }

  lemma RivalFolds(r: Registry, key: Key, enrollment: string, name: string, namedBy: NamedBy, rival: Key)
    requires Durable(r) && key.enrollment == enrollment && Absorbs(r.names, rival, key, name, enrollment)
    ensures Folds(r, WithRival(r, key, enrollment, name, namedBy, rival), key, enrollment)
  {
    RivalFoldsRecords(r, key, enrollment, name, namedBy, rival);
    RivalFoldsLive(r, key, enrollment, name, namedBy, rival);
    RivalFoldsDisplaced(r, key, enrollment, name, namedBy, rival);
  }

  lemma AbsorbFolds(r: Registry, key: Key, enrollment: string, name: string, namedBy: NamedBy, order: seq<Key>)
    requires Durable(r) && key.enrollment == enrollment && IsOrder(r, order)
    ensures Folds(r, WithName(Absorb(Start(r, key, enrollment), key, name, enrollment, order), name, namedBy), key, enrollment)
  {
    var start := Start(r, key, enrollment);
    if rival :| Absorbs(r.names, rival, key, name, enrollment) {
      AbsorbRival(start, key, name, enrollment, order, rival);
      RivalFolds(r, key, enrollment, name, namedBy, rival);
    } else {
      AbsorbNothing(start, key, name, enrollment, order);
      forall k | k != key ensures !HasName(r, k, enrollment, name) {
        assert !Absorbs(r.names, k, key, name, enrollment);
      }
      StartFolds(r, key, enrollment, name, namedBy);
    }
  }

  lemma NamedFolds(r: Registry, f: Frame, s: Supply, id: Identity, order: seq<Key>)
    requires Durable(r) && GoodSupply(r, f, s) && IsOrder(r, order)
    requires id.key.enrollment == f.enrollment && Named(r, f, s, id, order).Ok?
    ensures var a := Named(r, f, s, id, order).value;
            Folds(r, a, id.key, f.enrollment) && (Spelled(r) && s.autoName != Some("") ==> a.record.name != "")
  {
    var start := Start(r, id.key, f.enrollment);
    if id.name != "" {
      AbsorbFolds(r, id.key, f.enrollment, id.name, ByUser, order);
    } else if id.key in r.names && !(start.record.namedBy == ByAuto && s.paneName != "" && s.paneName != start.record.name) {
      StartFolds(r, id.key, f.enrollment, start.record.name, start.record.namedBy);
    } else if s.paneName != "" {
      AbsorbFolds(r, id.key, f.enrollment, s.paneName, ByHerdr, order);
    } else {
      StartFolds(r, id.key, f.enrollment, s.autoName.value, ByAuto);
    }
  }

  // ---------------------------------------------------------------- refused at the bind exactly over an unbacked binding

  /** The name the registration decides is bound, by an adapter it does not displace. */
  predicate HeldAtBind(r: Registry, a: Absorbing, enrollment: string) {
    var slot := Slot(enrollment, a.record.name);
    slot in r.byName && r.byName[slot] !in a.displaced
  }

  lemma BackedIsDisplaced(r: Registry, a: Absorbing, key: Key, enrollment: string)
    requires Sound(r) && Backed(r) && Folds(r, a, key, enrollment)
    ensures !HeldAtBind(r, a, enrollment)
  {
    var slot := Slot(enrollment, a.record.name);
    if slot in r.byName {
      assert BackedAt(r, slot);
      assert HasName(r, r.heap[r.byName[slot]].key, enrollment, a.record.name);
    }
  }

  /** Some registration would be refused just before its records are written. */
  ghost predicate Refusable(r: Registry) {
    exists f: Frame, s: Supply, order: seq<Key> ::
      Sensible(r, DoRegister(f, s, order)) && Register(r, f, s, order).1 == Err(NameHeldAtBind)
  }

  lemma {:induction false} Enumerated(ks: set<Key>) returns (order: seq<Key>)
    ensures forall k :: k in ks <==> k in order
    ensures forall i, j :: 0 <= i < j < |order| ==> order[i] != order[j]
  {
    if ks == {} {
      order := [];
    } else {
      var k :| k in ks;
      order := Enumerated(ks - {k});
      assert k !in order;
      order := order + [k];
      assert forall k' :: k' in ks <==> k' == k || k' in ks - {k};
    }
  }

  function PaneFrame(enrollment: string, session: string): Frame {
    Frame(true, false, true, true, enrollment, session, "", "", "")
  }

  /** A new session in a pane that shows the name. */
  lemma NewSession(r: Registry, enrollment: string, name: string) returns (f: Frame, s: Supply, order: seq<Key>)
    requires name != ""
    ensures Sensible(r, DoRegister(f, s, order))
    ensures f == PaneFrame(enrollment, f.session) && SessionKey(enrollment, f.session) !in r.names
    ensures s.paneName == name && s.capabilityOk && s.token.Some? && s.saveOk
  {
    var sessions := set k | k in r.names && k.SessionKey? :: k.session;
    var n := LongerThanAll(sessions);
    var t := LongerThanAll(r.tokens.Keys);
    var conn := GreaterThanAll(r.heap.Keys);
    order := Enumerated(r.names.Keys);
    f := PaneFrame(enrollment, Filler(n));
    s := Supply(conn, name, None, true, Some(Filler(t + 1)), true);
    assert SessionKey(enrollment, Filler(n)) in r.names ==> Filler(n) in sessions;
  }

  lemma UnbackedRefuses(r: Registry, slot: Slot)
    requires Sound(r) && slot in r.byName && !BackedAt(r, slot)
    ensures Refusable(r)
  {
    var f, s, order := NewSession(r, slot.enrollment, slot.name);
    var key := SessionKey(f.enrollment, f.session);
    var id := Identity(key, BySession, "");
    assert Identify(r, f, s) == Ok(id);
    NamedFolds(r, f, s, id, order);
    var a := Named(r, f, s, id, order).value;
    assert a.record.name == slot.name;
    var conn := r.byName[slot];
    assert !DisplacedFor(r, conn, key, f.enrollment, slot.name);
    assert Register(r, f, s, order).1 == Err(NameHeldAtBind);
  }

  /** A registration can be refused at the bind exactly when some binding is not backed. */
  lemma RefusableExact(r: Registry)
    requires Sound(r)
    ensures Refusable(r) <==> !Backed(r)
  {
    if slot :| slot in r.byName && !BackedAt(r, slot) {
      UnbackedRefuses(r, slot);
    } else if Refusable(r) {
      var f: Frame, s: Supply, order: seq<Key> :|
        Sensible(r, DoRegister(f, s, order)) && Register(r, f, s, order).1 == Err(NameHeldAtBind);
      NeverHeld(r, f, s, order);
      assert false;
    }
  }

  lemma NeverHeld(r: Registry, f: Frame, s: Supply, order: seq<Key>)
    requires Sound(r) && Backed(r) && Sensible(r, DoRegister(f, s, order))
    ensures Register(r, f, s, order).1 != Err(NameHeldAtBind)
  {
    var id := Identify(r, f, s);
    if id.Ok? && Named(r, f, s, id.value, order).Ok? {
      IdentifiedHere(r, f, s);
      NamedFolds(r, f, s, id.value, order);
      BackedIsDisplaced(r, Named(r, f, s, id.value, order).value, id.value.key, f.enrollment);
    }
  }

  // ---------------------------------------------------------------- which steps leave an unbacked binding

  /** The name is bound to the adapter of another identity, which the registration has already absorbed. */
  predicate TakesBinding(r: Registry, key: Key, enrollment: string, name: string) {
    var slot := Slot(enrollment, name);
    slot in r.byName && r.byName[slot] in r.heap && r.heap[r.byName[slot]].key != key
  }

  /** The identity's own live adapter is bound under another name. */
  predicate LeavesBinding(r: Registry, key: Key, name: string) {
    && key in r.live && r.live[key] in r.heap && r.heap[r.live[key]].name != name
    && SlotOf(r.heap[r.live[key]]) in r.byName && r.byName[SlotOf(r.heap[r.live[key]])] == r.live[key]
  }

  /** No credential can be drawn, or the save fails, after a bound name was taken over; or a name other than the bound one cannot be saved. */
  predicate FinishStrands(r: Registry, a: Absorbing, s: Supply, key: Key, enrollment: string) {
    var drawn := Sealed(a.record, s).Ok?;
    || (!(drawn && s.saveOk) && TakesBinding(r, key, enrollment, a.record.name))
    || (drawn && !s.saveOk && LeavesBinding(r, key, a.record.name))
  }

  /** A registration that decides its name and then comes to that. */
  predicate Strands(r: Registry, op: RegistryOp) {
    && op.DoRegister? && Deciding(r, op.frame, op.supply, op.order)
    && var id := Identify(r, op.frame, op.supply).value;
       FinishStrands(r, Named(r, op.frame, op.supply, id, op.order).value, op.supply, id.key, op.frame.enrollment)
  }

  /** Without a credential: exactly the rival's binding loses its backing. */
  lemma FoldedBackedExact(r: Registry, a: Absorbing, key: Key, enrollment: string)
    requires Sound(r) && Backed(r) && Folds(r, a, key, enrollment) && key.enrollment == enrollment
    ensures Bindings(a.reg) && Spelled(a.reg)
    ensures Backed(a.reg) <==> !TakesBinding(r, key, enrollment, a.record.name)
  {
    var slot := Slot(enrollment, a.record.name);
    if TakesBinding(r, key, enrollment, a.record.name) {
      assert BackedAt(r, slot);
      assert HasName(r, r.heap[r.byName[slot]].key, enrollment, a.record.name);
      assert !BackedAt(a.reg, slot);
    } else {
      forall other | other in a.reg.byName ensures BackedAt(a.reg, other) {
        assert BackedAt(r, other);
      }
    }
  }

  /** Without a save: also the identity's own binding, if its name changed. */
  lemma UnsavedBackedExact(r: Registry, a: Absorbing, key: Key, enrollment: string, record: Record)
    requires Sound(r) && Backed(r) && Folds(r, a, key, enrollment) && key.enrollment == enrollment
    requires record.name == a.record.name && record.name != ""
    ensures Bindings(Written(a, key, record)) && Spelled(Written(a, key, record))
    ensures Backed(Written(a, key, record)) <==>
            !TakesBinding(r, key, enrollment, a.record.name) && !LeavesBinding(r, key, a.record.name)
  {
    var w := Written(a, key, record);
    var slot := Slot(enrollment, a.record.name);
    if TakesBinding(r, key, enrollment, a.record.name) {
      assert BackedAt(r, slot);
      assert HasName(r, r.heap[r.byName[slot]].key, enrollment, a.record.name);
      assert !BackedAt(w, slot);
    } else if LeavesBinding(r, key, a.record.name) {
      assert BackedAt(r, SlotOf(r.heap[r.live[key]]));
      assert !BackedAt(w, SlotOf(r.heap[r.live[key]]));
    } else {
      forall other | other in w.byName ensures BackedAt(w, other) {
        assert BackedAt(r, other);
      }
    }
  }

  /** What a successful registration comes to: its own binding, and the old ones but those of adapters it displaced. */
  lemma CommittedBindings(r: Registry, a: Absorbing, f: Frame, s: Supply, id: Identity, record: Record)
    requires Folds(r, a, id.key, f.enrollment) && !HeldAtBind(r, a, f.enrollment)
    requires record.name == a.record.name && s.saveOk
    ensures var r' := Commit(a, f, s, id, record).0;
            var slot := Slot(f.enrollment, record.name);
            && r'.heap == r.heap[s.conn := NewAdapter(f, id, record)]
            && r'.names == a.reg.names[id.key := record] && r'.live == a.reg.live[id.key := s.conn]
            && slot in r'.byName && r'.byName[slot] == s.conn
            && (forall other :: other in r'.byName && other != slot ==>
                  && other in r.byName && r'.byName[other] == r.byName[other]
                  && (r.byName[other] in a.displaced && r.byName[other] in r.heap && SlotOf(r.heap[r.byName[other]]) == other ==>
                        r.heap[r.byName[other]].name == record.name))
  {
    UnbindAllExact(Written(a, id.key, record), r.byName, a.displaced, record.name);
  }

  lemma CommittedBackedAt(r: Registry, a: Absorbing, f: Frame, s: Supply, id: Identity, record: Record, r': Registry, other: Slot)
    requires Sound(r) && Folds(r, a, id.key, f.enrollment) && id.key.enrollment == f.enrollment
    requires record.name == a.record.name && s.conn !in r.heap
    requires r'.heap == r.heap[s.conn := NewAdapter(f, id, record)]
    requires r'.names == a.reg.names[id.key := record] && r'.live == a.reg.live[id.key := s.conn]
    requires other in r.byName && BackedAt(r, other) && other != Slot(f.enrollment, record.name)
    requires other in r'.byName && r'.byName[other] == r.byName[other]
    requires r.byName[other] in a.displaced ==> r.heap[r.byName[other]].name == record.name
    ensures r'.byName[other] in r'.heap && SlotOf(r'.heap[r'.byName[other]]) == other && BackedAt(r', other)
  {
    var k := r.heap[r.byName[other]].key;
    assert k != id.key && !HasName(r, k, f.enrollment, a.record.name);
  }

  lemma CommittedBacked(r: Registry, a: Absorbing, f: Frame, s: Supply, id: Identity, record: Record)
    requires Sound(r) && Backed(r) && Folds(r, a, id.key, f.enrollment) && id.key.enrollment == f.enrollment
    requires record.name == a.record.name && record.name != "" && s.saveOk && s.conn !in r.heap
    ensures var r' := Commit(a, f, s, id, record).0; Bindings(r') && Spelled(r') && Backed(r')
  {
    BackedIsDisplaced(r, a, id.key, f.enrollment);
    CommittedBindings(r, a, f, s, id, record);
    var r' := Commit(a, f, s, id, record).0;
    forall other | other in r'.byName ensures other.name != "" && r'.byName[other] in r'.heap
                                              && SlotOf(r'.heap[r'.byName[other]]) == other && BackedAt(r', other)
    {
      if other != Slot(f.enrollment, record.name) {
        CommittedBackedAt(r, a, f, s, id, record, r', other);
      }
    }
  }

  lemma FinishBackedExact(r: Registry, a: Absorbing, f: Frame, s: Supply, id: Identity)
    requires Sound(r) && Backed(r) && Folds(r, a, id.key, f.enrollment) && id.key.enrollment == f.enrollment
    requires a.record.name != "" && s.conn !in r.heap
    ensures var r' := Finish(a, f, s, id).0;
            && Bindings(r') && Spelled(r')
            && (Backed(r') <==> !FinishStrands(r, a, s, id.key, f.enrollment))
  {
    var sealed := Sealed(a.record, s);
    BackedIsDisplaced(r, a, id.key, f.enrollment);
    if sealed.Err? {
      FoldedBackedExact(r, a, id.key, f.enrollment);
    } else if s.saveOk {
      CommittedBacked(r, a, f, s, id, sealed.value);
    } else {
      UnsavedBackedExact(r, a, id.key, f.enrollment, sealed.value);
    }
  }

  /** What `Finish` comes to, told by its guards. */
  lemma FinishStrandsExact(r: Registry, f: Frame, s: Supply, order: seq<Key>)
    requires Sound(r) && Backed(r) && Sensible(r, DoRegister(f, s, order)) && Deciding(r, f, s, order)
    ensures var r' := Finish(Named(r, f, s, Identify(r, f, s).value, order).value, f, s, Identify(r, f, s).value).0;
            Bindings(r') && Spelled(r') && (Backed(r') <==> !Strands(r, DoRegister(f, s, order)))
  {
    var id := Identify(r, f, s).value;
    var a := Named(r, f, s, id, order).value;
    IdentifiedHere(r, f, s);
    NamedFolds(r, f, s, id, order);
    BackedIsDisplaced(r, a, id.key, f.enrollment);
    FinishBackedExact(r, a, f, s, id);
  }

  lemma RegisterBackedExact(r: Registry, f: Frame, s: Supply, order: seq<Key>)
    requires Sound(r) && Backed(r) && Sensible(r, DoRegister(f, s, order))
    ensures var r' := Register(r, f, s, order).0;
            Bindings(r') && Spelled(r') && (Backed(r') <==> !Strands(r, DoRegister(f, s, order)))
  {
    if Deciding(r, f, s, order) {
      FinishStrandsExact(r, f, s, order);
    }
  }

  lemma RenameBacked(r: Registry, conn: nat, name: string, namedBy: NamedBy, saveOk: bool)
    requires Sound(r) && Backed(r) && name != ""
    ensures var r' := Rename(r, conn, name, namedBy, saveOk).0; Bindings(r') && Spelled(r') && Backed(r')
  {
    if Rename(r, conn, name, namedBy, saveOk).1.None? {
      var r' := RenamedTo(r, conn, name, namedBy);
      forall slot | slot in r'.byName ensures slot.name != "" && r'.byName[slot] in r'.heap
                                              && SlotOf(r'.heap[r'.byName[slot]]) == slot && BackedAt(r', slot)
      {
        if slot != Slot(r.heap[conn].enrollment, name) {
          assert BackedAt(r, slot);
        }
      }
    }
  }

  lemma DeregisterBacked(r: Registry, conn: nat)
    requires Sound(r) && Backed(r)
    ensures var r' := Deregister(r, conn); Bindings(r') && Spelled(r') && Backed(r')
  {
    var r' := Deregister(r, conn);
    if r' != r {
      forall slot | slot in r'.byName ensures BackedAt(r', slot) {
        assert BackedAt(r, slot);
      }
    }
  }

  /** One step from a registry with every binding backed: they stay backed exactly when it strands none. */
  lemma StepBackedExact(r: Registry, op: RegistryOp)
    requires Sound(r) && Backed(r) && Sensible(r, op)
    ensures Sound(Apply(r, op)) && (Backed(Apply(r, op)) <==> !Strands(r, op))
  {
    StepDurable(r, op);
    match op
    case DoRegister(f, s, order) => RegisterBackedExact(r, f, s, order);
    case DoRename(conn, name, namedBy, saveOk) => RenameBacked(r, conn, name, namedBy, saveOk);
    case DoReconcile(conn, paneName, saveOk) => RenameBacked(r, conn, paneName, ByHerdr, saveOk);
    case DoDeregister(conn) => DeregisterBacked(r, conn);
  }

  ghost predicate SensibleRun(r: Registry, ops: seq<RegistryOp>)
    decreases |ops|
  {
    ops == [] || (Sensible(r, ops[0]) && SensibleRun(Apply(r, ops[0]), ops[1..]))
  }

  /** At some point of the run a registration could be refused at the bind. */
  ghost predicate EverRefusable(r: Registry, ops: seq<RegistryOp>)
    decreases |ops|
  {
    Refusable(r) || (ops != [] && EverRefusable(Apply(r, ops[0]), ops[1..]))
  }

  ghost predicate EverStrands(r: Registry, ops: seq<RegistryOp>)
    decreases |ops|
  {
    ops != [] && (Strands(r, ops[0]) || EverStrands(Apply(r, ops[0]), ops[1..]))
  }

  /** Over any run the refusal becomes possible exactly when a late failure strands a binding. */
  lemma {:induction false} RefusedOnlyAfterStranding(r: Registry, ops: seq<RegistryOp>)
    requires Sound(r) && Backed(r) && SensibleRun(r, ops)
    ensures EverRefusable(r, ops) <==> EverStrands(r, ops)
    decreases |ops|
  {
    RefusableExact(r);
    if ops != [] {
      StepBackedExact(r, ops[0]);
      var r' := Apply(r, ops[0]);
      RefusableExact(r');
      if !Strands(r, ops[0]) {
        RefusedOnlyAfterStranding(r', ops[1..]);
      }
    }
  }

  lemma ReachableRefusal(ops: seq<RegistryOp>)
    requires SensibleRun(EMPTY, ops)
    ensures EverRefusable(EMPTY, ops) <==> EverStrands(EMPTY, ops)
  {
    RefusedOnlyAfterStranding(EMPTY, ops);
  }

  // ---------------------------------------------------------------- a binding taken over is stranded for good

  /** Bound to an adapter that is live nowhere any more. */
  predicate Stranded(r: Registry, slot: Slot) {
    slot in r.byName && LiveNowhere(r, r.byName[slot])
  }

  lemma TakenIsNowhere(r: Registry, a: Absorbing, key: Key, enrollment: string)
    requires Sound(r) && Backed(r) && Folds(r, a, key, enrollment) && TakesBinding(r, key, enrollment, a.record.name)
    ensures Stranded(a.reg, Slot(enrollment, a.record.name))
  {
    var slot := Slot(enrollment, a.record.name);
    assert BackedAt(r, slot);
    assert HasName(r, r.heap[r.byName[slot]].key, enrollment, a.record.name);
  }

  lemma FailedLeavesAbsorbed(a: Absorbing, f: Frame, s: Supply, id: Identity)
    requires !HeldAtBind(a.reg, a, f.enrollment) && Finish(a, f, s, id).1.Err?
    ensures var r' := Finish(a, f, s, id).0;
            r'.byName == a.reg.byName && r'.live == a.reg.live && r'.heap == a.reg.heap
  {
  }

  /** A late failure after taking a bound name over leaves it bound to an adapter whose departure nobody will feel. */
  lemma TakingOverStrands(r: Registry, f: Frame, s: Supply, order: seq<Key>)
    requires Sound(r) && Backed(r) && Sensible(r, DoRegister(f, s, order)) && Strands(r, DoRegister(f, s, order))
    requires TakesBinding(r, Identify(r, f, s).value.key, f.enrollment, Named(r, f, s, Identify(r, f, s).value, order).value.record.name)
    ensures Stranded(Register(r, f, s, order).0, Slot(f.enrollment, Named(r, f, s, Identify(r, f, s).value, order).value.record.name))
  {
    var id := Identify(r, f, s).value;
    var a := Named(r, f, s, id, order).value;
    IdentifiedHere(r, f, s);
    NamedFolds(r, f, s, id, order);
    BackedIsDisplaced(r, a, id.key, f.enrollment);
    TakenIsNowhere(r, a, id.key, f.enrollment);
    FailedLeavesAbsorbed(a, f, s, id);
  }

  lemma RegisterLeavesStranded(r: Registry, f: Frame, s: Supply, order: seq<Key>, slot: Slot)
    requires Durable(r) && Possible(r, DoRegister(f, s, order)) && Stranded(r, slot)
    ensures var r' := Register(r, f, s, order).0; slot in r'.byName && r'.byName[slot] == r.byName[slot]
  {
    var id := Identify(r, f, s);
    if id.Ok? && Named(r, f, s, id.value, order).Ok? {
      var a := Named(r, f, s, id.value, order).value;
      IdentifiedHere(r, f, s);
      NamedFolds(r, f, s, id.value, order);
      assert !DisplacedFor(r, r.byName[slot], id.value.key, f.enrollment, a.record.name);
      if Sealed(a.record, s).Ok? {
        UnbindAllExact(Written(a, id.value.key, Sealed(a.record, s).value), r.byName, a.displaced, a.record.name);
      }
    }
  }

  lemma StepLeavesStranded(r: Registry, op: RegistryOp, slot: Slot)
    requires Durable(r) && Possible(r, op) && Stranded(r, slot)
    ensures Stranded(Apply(r, op), slot)
  {
    StepLeavesDeparted(r, op, r.byName[slot]);
    if op.DoRegister? {
      RegisterLeavesStranded(r, op.frame, op.supply, op.order, slot);
    }
  }

  /** Whoever decides a stranded name is refused, and so is whoever claims it. */
  lemma StrandedIsRefused(r: Registry, slot: Slot)
    requires Durable(r) && Stranded(r, slot)
    ensures forall f: Frame, s: Supply, order: seq<Key> :: Possible(r, DoRegister(f, s, order)) && Decides(r, f, s, order, slot) ==>
              Register(r, f, s, order).1.Err?
              && (Sealed(Named(r, f, s, Identify(r, f, s).value, order).value.record, s).Ok? ==>
                    Register(r, f, s, order).1 == Err(NameHeldAtBind))
    ensures forall conn, namedBy, saveOk :: conn in r.heap && r.heap[conn].enrollment == slot.enrollment ==>
              Rename(r, conn, slot.name, namedBy, saveOk).1 in {Some(AgentNotFound), Some(NameClaimed)}
  {
    forall f: Frame, s: Supply, order: seq<Key> | Possible(r, DoRegister(f, s, order)) && Decides(r, f, s, order, slot)
      ensures Register(r, f, s, order).1.Err?
              && (Sealed(Named(r, f, s, Identify(r, f, s).value, order).value.record, s).Ok? ==>
                    Register(r, f, s, order).1 == Err(NameHeldAtBind))
    {
      var id := Identify(r, f, s).value;
      var a := Named(r, f, s, id, order).value;
      IdentifiedHere(r, f, s);
      NamedFolds(r, f, s, id, order);
      assert !DisplacedFor(r, r.byName[slot], id.key, f.enrollment, a.record.name);
    }
  }

  /** The registration gets as far as deciding the name of the slot. */
  predicate Decides(r: Registry, f: Frame, s: Supply, order: seq<Key>, slot: Slot) {
    Deciding(r, f, s, order) && f.enrollment == slot.enrollment
    && Named(r, f, s, Identify(r, f, s).value, order).value.record.name == slot.name
  }

  /** So it stays, over any run: the name can never be registered or claimed again. */
  lemma {:induction false} StrandedForGood(r: Registry, ops: seq<RegistryOp>, slot: Slot)
    requires Durable(r) && PossibleRun(r, ops) && Stranded(r, slot)
    ensures var end := RegistryLaws.Run(r, ops);
            && Stranded(end, slot)
            && (forall f: Frame, s: Supply, order: seq<Key> :: Possible(end, DoRegister(f, s, order)) && Decides(end, f, s, order, slot) ==>
                  Register(end, f, s, order).1.Err?)
    decreases |ops|
  {
    if ops == [] {
      StrandedIsRefused(r, slot);
    } else {
      StepLeavesStranded(r, ops[0], slot);
      StepDurable(r, ops[0]);
      StrandedForGood(Apply(r, ops[0]), ops[1..], slot);
    }
  }

  // ---------------------------------------------------------------- it does happen

  const PANE: Frame := PaneFrame("acme", "another")
  const NO_CAPABILITY: Supply := Supply(2, "clem", None, false, Some("another"), true)

  /** An agent is registered, another session in a pane of its name follows, and no capability can be drawn for it. */
  lemma ClemStranded()
    ensures var r := Register(EMPTY, CLEM, FIRST_TIME, []).0;
            && Sensible(EMPTY, DoRegister(CLEM, FIRST_TIME, [])) && Sensible(r, DoRegister(PANE, NO_CAPABILITY, [CLEM_KEY]))
            && Register(r, PANE, NO_CAPABILITY, [CLEM_KEY]).1 == Err(CapabilityFailed)
            && Stranded(Register(r, PANE, NO_CAPABILITY, [CLEM_KEY]).0, Slot("acme", "clem"))
  {
    ClemRegistered();
    var r := Register(EMPTY, CLEM, FIRST_TIME, []).0;
    assert |"clem"| == 4 && [CLEM_KEY][..0] == [];
    var key := SessionKey("acme", "another");
    assert Identify(r, PANE, NO_CAPABILITY) == Ok(Identity(key, BySession, ""));
    var start := Start(r, key, "acme");
    assert Absorb(start, key, "clem", "acme", [CLEM_KEY]) == AbsorbOne(start, key, "clem", "acme", CLEM_KEY);
  }
}
