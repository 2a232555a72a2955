/**
 The daemon's native identity registry in its own form (daemon/adapter.go): adapter
 objects shared by two live indexes, and the maps of durable names and tokens. Every
 method is proved to do what RegistryModel says of the registry's view.
 */
module Registry {
  import opened Common
  import opened RegistryModel

  /** One connected session. Its name, and how it got it, change in place. */
  class AgentAdapter {
    const conn: nat
    const key: Key
    const enrollment: string
    const session: string
    const pane: string
    const token: string
    var name: string
    var namedBy: NamedBy
    var generation: nat

    function Value(): Adapter
      reads this
    {
      Adapter(key, enrollment, session, pane, name, namedBy, generation, token)
    }

    constructor (conn: nat, key: Key, f: Frame, record: Record)
      ensures this.conn == conn
      ensures Value() == Adapter(key, f.enrollment, f.session, f.pane, record.name, record.namedBy, record.generation, record.token)
    {
      this.conn, this.key := conn, key;
      enrollment, session, pane, token := f.enrollment, f.session, f.pane, record.token;
      name, namedBy, generation := record.name, record.namedBy, record.generation;
    }
  }

  function Conns(adapters: seq<AgentAdapter>): (conns: seq<nat>)
    ensures |conns| == |adapters| && forall i :: 0 <= i < |adapters| ==> conns[i] == adapters[i].conn
  {
    seq(|adapters|, i requires 0 <= i < |adapters| => adapters[i].conn)
  }

  /** Reconciling the candidates one after the other. */
  function ReconcileAll(r: RegistryModel.Registry, conns: seq<nat>, names: map<string, string>, saveOk: nat -> bool): RegistryModel.Registry {
    if conns == [] then r
    else
      var conn := conns[|conns| - 1];
      var r' := ReconcileAll(r, conns[..|conns| - 1], names, saveOk);
      if conn in r'.heap && r'.heap[conn].pane in names then Reconcile(r', conn, names[r'.heap[conn].pane], saveOk(conn)) else r'
  }

  predicate Follows(names: map<string, string>, a: Adapter) {
    a.namedBy == ByHerdr && a.pane in names && names[a.pane] != a.name
  }

  lemma ReconcileSnoc(r: RegistryModel.Registry, conns: seq<nat>, names: map<string, string>, saveOk: nat -> bool, i: nat)
    requires i < |conns|
    ensures var r' := ReconcileAll(r, conns[..i], names, saveOk);
            ReconcileAll(r, conns[..i + 1], names, saveOk) ==
            if conns[i] in r'.heap && r'.heap[conns[i]].pane in names
            then Reconcile(r', conns[i], names[r'.heap[conns[i]].pane], saveOk(conns[i])) else r'
  {
    assert conns[..i + 1][..i] == conns[..i];
  }

  /** Unbinding depends on the displaced adapters alone. */
  lemma {:induction false} SameUnbinding(r: RegistryModel.Registry, r': RegistryModel.Registry, byName: map<Slot, nat>, conns: seq<nat>, name: string)
    requires forall c :: c in conns ==> (c in r.heap <==> c in r'.heap) && (c in r.heap ==> r.heap[c] == r'.heap[c])
    ensures UnbindAll(r, byName, conns, name) == UnbindAll(r', byName, conns, name)
  {
    if conns != [] {
      var n := |conns| - 1;
      assert conns[n] in conns;
      SameUnbinding(r, r', byName, conns[..n], name);
    }
  }

  lemma UnbindAllSnoc(r: RegistryModel.Registry, conns: seq<nat>, name: string, i: nat)
    requires i < |conns|
    ensures var b := UnbindAll(r, r.byName, conns[..i], name);
            UnbindAll(r, r.byName, conns[..i + 1], name) ==
            if conns[i] in r.heap && r.heap[conns[i]].name != name then Unbind(b, SlotOf(r.heap[conns[i]]), conns[i]) else b
  {
    assert conns[..i + 1][..i] == conns[..i];
  }

  /** A live adapter named by its pane, whose pane now shows another usable name. */
  ghost predicate IsCandidate(r: RegistryModel.Registry, names: map<string, string>, conn: nat) {
    && conn in r.heap && (exists k :: k in r.live && r.live[k] == conn)
    && Follows(names, r.heap[conn])
  }

  class Daemon {
    var nativeNames: map<Key, Record>
    var nativeTokens: map<string, Key>
    var adapters: map<Key, AgentAdapter>
    var nativeByName: map<Slot, AgentAdapter>
    ghost var known: map<nat, AgentAdapter>    // every adapter registered so far, by connection

    ghost predicate Knows(a: AgentAdapter)
      reads this
    {
      a.conn in known && known[a.conn] == a
    }

    ghost predicate Valid()
      reads this
    {
      && (forall c :: c in known ==> known[c].conn == c)
      && (forall k :: k in adapters ==> Knows(adapters[k]))
      && (forall s :: s in nativeByName ==> Knows(nativeByName[s]))
    }

    ghost function Heap(): map<nat, Adapter>
      reads this`known, known.Values
    {
      map c | c in known :: known[c].Value()
    }

    ghost function Live(): map<Key, nat>
      reads this`adapters
    {
      map k | k in adapters :: adapters[k].conn
    }

    ghost function Bound(): map<Slot, nat>
      reads this`nativeByName
    {
      map s | s in nativeByName :: nativeByName[s].conn
    }

    ghost function View(): RegistryModel.Registry
      reads this, known.Values
    {
      RegistryModel.Registry(nativeNames, nativeTokens, Heap(), Live(), Bound())
    }

    constructor ()
      ensures Valid() && View() == RegistryModel.EMPTY && known == map[]
    {
      nativeNames, nativeTokens, adapters, nativeByName, known := map[], map[], map[], map[], map[];
    }

    method BindName(slot: Slot, adapter: AgentAdapter)
      requires Valid() && Knows(adapter)
      modifies this`nativeByName
      ensures Valid() && View() == old(View()).(byName := old(View()).byName[slot := adapter.conn])
    {
      nativeByName := nativeByName[slot := adapter];
      assert Bound() == old(Bound())[slot := adapter.conn];
    }

    method UnbindName(slot: Slot, adapter: AgentAdapter)
      requires Valid() && Knows(adapter)
      modifies this`nativeByName
      ensures Valid() && View() == old(View()).(byName := Unbind(old(View()).byName, slot, adapter.conn))
    {
      if slot in nativeByName && nativeByName[slot] == adapter {
        nativeByName := nativeByName - {slot};
        assert Bound() == old(Bound()) - {slot};
      }
    }

    method DeregisterAgentAdapter(adapter: AgentAdapter)
      requires Valid() && Knows(adapter)
      modifies this`adapters, this`nativeByName
      ensures Valid() && View() == Deregister(old(View()), adapter.conn)
    {
      if adapter.key in adapters && adapters[adapter.key] == adapter {
        adapters := adapters - {adapter.key};
        assert Live() == old(Live()) - {adapter.key};
        UnbindName(Slot(adapter.enrollment, adapter.name), adapter);
      }
    }

    /** Why an adapter may not take a name, if it may not. */
    method NameClaimError(adapter: AgentAdapter, name: string) returns (error: Option<ClaimError>)
      requires Valid() && Knows(adapter)
      ensures error == if adapter.key !in View().live || View().live[adapter.key] != adapter.conn then Some(AgentNotFound)
                       else if ClaimedByAnother(View(), adapter.Value(), adapter.conn, name) then Some(NameClaimed)
                       else None
    {
      if adapter.key !in adapters || adapters[adapter.key] != adapter {
        return Some(AgentNotFound);
      }
      var rest := nativeNames.Keys;
      while rest != {}
        invariant rest <= nativeNames.Keys
        invariant forall k :: k in nativeNames && k !in rest && k != adapter.key ==>
                    nativeNames[k].name != name || nativeNames[k].enrollment != adapter.enrollment
        decreases |rest|
      {
        var key :| key in rest;
        rest := rest - {key};
        if key != adapter.key && nativeNames[key].name == name && nativeNames[key].enrollment == adapter.enrollment {
          return Some(NameClaimed);
        }
      }
      var slot := Slot(adapter.enrollment, name);
      if slot in nativeByName && nativeByName[slot] != adapter {
        return Some(NameClaimed);
      }
      return None;
    }

    /** Sets what an adapter is called, on the object and in its record. */
    method WriteIdentity(adapter: AgentAdapter, name: string, namedBy: NamedBy, generation: nat, record: Record)
      requires Valid() && Knows(adapter)
      modifies this`nativeNames, adapter
      ensures Valid() && adapter.name == name && adapter.namedBy == namedBy && adapter.generation == generation
      ensures nativeNames == old(nativeNames)[adapter.key := record]
      ensures View() == old(View()).(
                names := old(View()).names[adapter.key := record],
                heap := old(View()).heap[adapter.conn := old(adapter.Value()).(name := name, namedBy := namedBy, generation := generation)])
    {
      adapter.name, adapter.namedBy, adapter.generation := name, namedBy, generation;
      nativeNames := nativeNames[adapter.key := record];
      assert Heap() == old(Heap())[adapter.conn := adapter.Value()];
    }

    /** Moves the live binding from the name an adapter had to the one it has. */
    method Rebind(adapter: AgentAdapter, previousName: string)
      requires Valid() && Knows(adapter)
      modifies this`nativeByName
      ensures Valid()
      ensures View() == old(View()).(byName :=
                Unbind(old(View()).byName, Slot(adapter.enrollment, previousName), adapter.conn)[Slot(adapter.enrollment, adapter.name) := adapter.conn])
    {
      UnbindName(Slot(adapter.enrollment, previousName), adapter);
      BindName(Slot(adapter.enrollment, adapter.name), adapter);
    }

    /** Writes the new name everywhere, or, when the save fails, puts everything back. */
    method TakeName(adapter: AgentAdapter, name: string, namedBy: NamedBy, saveOk: bool)
      requires Valid() && Knows(adapter) && adapter.key in nativeNames
      modifies this`nativeNames, this`nativeByName, adapter
      ensures Valid()
      ensures View() == if saveOk then RenamedTo(old(View()), adapter.conn, name, namedBy) else old(View())
    {
      ghost var before := View();
      var previous := adapter.Value();
      assert before.heap[adapter.conn] == previous;
      var previousRecord := nativeNames[adapter.key];
      var generation := previousRecord.generation + 1;
      WriteIdentity(adapter, name, namedBy, generation, Record(name, namedBy, generation, previousRecord.token, adapter.enrollment));
      if saveOk {
        Rebind(adapter, previous.name);
      } else {
        ghost var record, value := nativeNames[adapter.key], adapter.Value();
        WriteIdentity(adapter, previous.name, previous.namedBy, previous.generation, previousRecord);
        Restored(before, View(), adapter.conn, adapter.key, record, value);
      }
    }

    /** Writing over two entries what they held gives back the same registry. */
    static lemma Restored(before: RegistryModel.Registry, after: RegistryModel.Registry, conn: nat, key: Key, r: Record, a: Adapter)
      requires conn in before.heap && key in before.names
      requires after.tokens == before.tokens && after.live == before.live && after.byName == before.byName
      requires after.names == before.names[key := r][key := before.names[key]]
      requires after.heap == before.heap[conn := a][conn := before.heap[conn]]
      ensures after == before
    {
      assert after.names == before.names && after.heap == before.heap;
    }

    /** Updates the live route and the durable record together, or, when the save fails, neither. */
    method RenameNativeAdapter(adapter: AgentAdapter, name: string, namedBy: NamedBy, saveOk: bool) returns (error: Option<ClaimError>)
      requires Valid() && Knows(adapter)
      requires adapter.key in adapters ==> adapter.key in nativeNames
      modifies this`nativeNames, this`nativeByName, adapter
      ensures Valid() && (View(), error) == Rename(old(View()), adapter.conn, name, namedBy, saveOk)
    {
      error := NameClaimError(adapter, name);
      if error.None? {
        TakeName(adapter, name, namedBy, saveOk);
        error := if saveOk then None else Some(SaveFailed);
      }
    }

    /** Live adapters named by their pane, whose pane now shows another usable name. */
    method Candidates(namesByPane: map<string, string>) returns (candidates: seq<AgentAdapter>)
      requires Valid()
      ensures forall a :: a in candidates ==> Knows(a)
      ensures forall c :: c in Conns(candidates) <==> IsCandidate(View(), namesByPane, c)
    {
      candidates := [];
      var rest := adapters.Keys;
      while rest != {}
        invariant rest <= adapters.Keys
        invariant forall a :: a in candidates ==> Knows(a) && IsCandidate(View(), namesByPane, a.conn)
        invariant forall k :: k in adapters && k !in rest && Follows(namesByPane, adapters[k].Value()) ==> adapters[k] in candidates
        decreases |rest|
      {
        var key :| key in rest;
        rest := rest - {key};
        var adapter := adapters[key];
        if adapter.pane in namesByPane && adapter.namedBy == ByHerdr && namesByPane[adapter.pane] != adapter.name {
          assert View().live[key] == adapter.conn && View().heap[adapter.conn] == adapter.Value();
          candidates := candidates + [adapter];
        }
      }
      forall c | IsCandidate(View(), namesByPane, c) ensures c in Conns(candidates) {
        var k :| k in View().live && View().live[k] == c;
        assert View().heap[c] == adapters[k].Value();
        assert adapters[k] in candidates;
        var i :| 0 <= i < |candidates| && candidates[i] == adapters[k];
        assert Conns(candidates)[i] == c;
      }
      forall c | c in Conns(candidates) ensures IsCandidate(View(), namesByPane, c) {
        var i :| 0 <= i < |candidates| && Conns(candidates)[i] == c;
        assert candidates[i] in candidates;
      }
    }

    /** Follows pane renames for the adapters whose name came from their pane. */
    method ReconcileHerdrAdapterNames(namesByPane: map<string, string>, saveOk: nat -> bool) returns (candidates: seq<AgentAdapter>)
      requires Valid() && adapters.Keys <= nativeNames.Keys
      modifies this`nativeNames, this`nativeByName, known.Values
      ensures Valid()
      ensures forall c :: c in Conns(candidates) <==> IsCandidate(old(View()), namesByPane, c)
      ensures View() == ReconcileAll(old(View()), Conns(candidates), namesByPane, saveOk)
    {
      ghost var r := View();
      candidates := Candidates(namesByPane);
      for i := 0 to |candidates|
        invariant Valid() && adapters.Keys <= nativeNames.Keys
        invariant View() == ReconcileAll(r, Conns(candidates)[..i], namesByPane, saveOk)
      {
        var adapter := candidates[i];
        assert adapter in candidates;
        ReconcileSnoc(r, Conns(candidates), namesByPane, saveOk, i);
        ReconcileOne(adapter, namesByPane, saveOk(adapter.conn));
      }
      assert Conns(candidates)[..|candidates|] == Conns(candidates);
    }

    /** One candidate, rechecked because the lock was released in between. */
    method ReconcileOne(adapter: AgentAdapter, namesByPane: map<string, string>, saveOk: bool)
      requires Valid() && Knows(adapter) && adapters.Keys <= nativeNames.Keys
      modifies this`nativeNames, this`nativeByName, adapter
      ensures Valid() && adapters.Keys <= nativeNames.Keys
      ensures View() == if adapter.pane in namesByPane
                        then Reconcile(old(View()), adapter.conn, namesByPane[adapter.pane], saveOk) else old(View())
    {
      if adapter.pane !in namesByPane {
        return;
      }
      var name := namesByPane[adapter.pane];
      assert View().heap[adapter.conn] == adapter.Value();
      if adapter.key !in adapters || adapters[adapter.key] != adapter || adapter.namedBy != ByHerdr || adapter.name == name {
        return;
      }
      var error := RenameNativeAdapter(adapter, name, ByHerdr, saveOk);
    }

    // -------------------------------------------------------------- registration

    method SomeOrder() returns (order: seq<Key>)
      ensures (forall k :: k in nativeNames <==> k in order)
      ensures forall i, j :: 0 <= i < j < |order| ==> order[i] != order[j]
    {
      order := [];
      var rest := nativeNames.Keys;
      while rest != {}
        invariant rest <= nativeNames.Keys
        invariant forall k :: k in order <==> k in nativeNames && k !in rest
        invariant forall i, j :: 0 <= i < j < |order| ==> order[i] != order[j]
        decreases |rest|
      {
        var key :| key in rest;
        rest := rest - {key};
        order := order + [key];
      }
    }

    method DropRecord(other: Key, token: string)
      requires Valid()
      modifies this`nativeNames, this`nativeTokens, this`adapters
      ensures Valid()
      ensures View() == old(View()).(names := old(View()).names - {other}, tokens := old(View()).tokens - {token},
                                     live := old(View()).live - {other})
    {
      adapters := adapters - {other};
      nativeTokens := nativeTokens - {token};
      nativeNames := nativeNames - {other};
      assert Live() == old(Live()) - {other};
    }

    /** Folds one stale record of the same name into the identity. */
    method AbsorbRecord(key: Key, name: string, enrollment: string, other: Key, record: Record, displaced: seq<AgentAdapter>)
      returns (record': Record, displaced': seq<AgentAdapter>)
      requires Valid() && forall a :: a in displaced ==> Knows(a)
      modifies this`nativeNames, this`nativeTokens, this`adapters
      ensures Valid() && forall a :: a in displaced' ==> Knows(a)
      ensures Absorbing(View(), record', Conns(displaced')) ==
              AbsorbOne(Absorbing(old(View()), record, Conns(displaced)), key, name, enrollment, other)
    {
      if other !in nativeNames || other == key || nativeNames[other].name != name || nativeNames[other].enrollment != enrollment {
        return record, displaced;
      }
      var stale := nativeNames[other];
      displaced' := if other in adapters then displaced + [adapters[other]] else displaced;
      assert Conns(displaced') == if other in adapters then Conns(displaced) + [adapters[other].conn] else Conns(displaced);
      record' := record.(
        generation := if stale.generation > record.generation then stale.generation else record.generation,
        token := if record.token == "" then stale.token else record.token);
      DropRecord(other, stale.token);
    }

    /** Visits the records in one order, deleting while it scans. */
    method AbsorbName(key: Key, name: string, enrollment: string, record: Record, displaced: seq<AgentAdapter>, order: seq<Key>)
      returns (record': Record, displaced': seq<AgentAdapter>)
      requires Valid() && forall a :: a in displaced ==> Knows(a)
      modifies this`nativeNames, this`nativeTokens, this`adapters
      ensures Valid() && forall a :: a in displaced' ==> Knows(a)
      ensures Absorbing(View(), record', Conns(displaced')) ==
              Absorb(Absorbing(old(View()), record, Conns(displaced)), key, name, enrollment, order)
    {
      ghost var start := Absorbing(View(), record, Conns(displaced));
      record', displaced' := record, displaced;
      for i := 0 to |order|
        invariant Valid() && forall a :: a in displaced' ==> Knows(a)
        invariant Absorbing(View(), record', Conns(displaced')) == Absorb(start, key, name, enrollment, order[..i])
      {
        assert order[..i + 1][..i] == order[..i];
        record', displaced' := AbsorbRecord(key, name, enrollment, order[i], record', displaced');
      }
      assert order[..|order|] == order;
    }

    method AdapterKey(f: Frame) returns (key: Key, anchor: Anchor)
      ensures (key, anchor) == ResolveKey(View(), f)
    {
      if f.token != "" && f.token in nativeTokens {
        var stored := nativeTokens[f.token];
        if stored in nativeNames && nativeNames[stored].enrollment == f.enrollment {
          return stored, ByToken;
        }
      }
      if f.name != "" {
        return NameKey(f.enrollment, f.name), ByName;
      }
      return SessionKey(f.enrollment, f.session), BySession;
    }

    /** Which identity the frame speaks for, and the declared name that still counts. */
    method IdentifyFrame(f: Frame, s: Supply) returns (id: Result<Identity, Refusal>)
      requires Valid()
      ensures id == Identify(View(), f, s)
    {
      var key, anchor := AdapterKey(f);
      if anchor == ByToken {
        return Ok(Identity(key, anchor, ""));
      }
      var slot := Slot(f.enrollment, f.name);
      if anchor == ByName && slot in nativeByName {
        var held := nativeByName[slot];
        assert View().heap[View().byName[slot]] == held.Value();
        if held.session != f.session && held.pane != f.pane {
          if s.paneName != "" && s.paneName != f.name {
            return Ok(Identity(SessionKey(f.enrollment, f.session), BySession, ""));
          }
          return Err(NameHeldByPane);
        }
      }
      return Ok(Identity(key, anchor, f.name));
    }

    /** Decides the name: declared, stored, the pane's, or a generated one; same-named records are absorbed. */
    method NameIdentity(f: Frame, s: Supply, id: Identity, order: seq<Key>)
      returns (refusal: Option<Refusal>, record: Record, displaced: seq<AgentAdapter>)
      requires Valid()
      modifies this`nativeNames, this`nativeTokens, this`adapters
      ensures Valid() && forall a :: a in displaced ==> Knows(a)
      ensures Named(old(View()), f, s, id, order) ==
              if refusal.Some? then Err(refusal.value) else Ok(Absorbing(View(), record, Conns(displaced)))
      ensures refusal.Some? ==> View() == old(View())
    {
      refusal := None;
      record := (if id.key in nativeNames then nativeNames[id.key] else NO_RECORD).(enrollment := f.enrollment);
      displaced := if id.key in adapters then [adapters[id.key]] else [];
      assert Conns(displaced) == if id.key in View().live then [View().live[id.key]] else [];
      if id.name != "" {
        record, displaced := AbsorbName(id.key, id.name, f.enrollment, record, displaced, order);
        record := record.(name := id.name, namedBy := ByUser);
        return;
      }
      var hasName := id.key in nativeNames;
      if hasName && record.namedBy == ByAuto && s.paneName != "" && s.paneName != record.name {
        hasName := false;
      }
      if hasName {
        return;
      }
      if s.paneName != "" {
        record, displaced := AbsorbName(id.key, s.paneName, f.enrollment, record, displaced, order);
        record := record.(name := s.paneName, namedBy := ByHerdr);
        return;
      }
      if s.autoName.None? {
        refusal := Some(NameAllocationFailed);
        return;
      }
      record := record.(name := s.autoName.value, namedBy := ByAuto);
    }

    /** Takes the displaced adapters off the names they had. */
    method UnbindDisplaced(displaced: seq<AgentAdapter>, name: string)
      requires Valid() && forall a :: a in displaced ==> Knows(a)
      modifies this`nativeByName
      ensures Valid()
      ensures View() == old(View()).(byName := UnbindAll(old(View()), old(View()).byName, Conns(displaced), name))
    {
      ghost var r := View();
      for i := 0 to |displaced|
        invariant Valid()
        invariant View() == r.(byName := UnbindAll(r, r.byName, Conns(displaced)[..i], name))
      {
        var previous := displaced[i];
        assert previous in displaced;
        assert r.heap[previous.conn] == previous.Value();
        UnbindAllSnoc(r, Conns(displaced), name, i);
        if previous.name != name {
          UnbindName(Slot(previous.enrollment, previous.name), previous);
        }
      }
      assert Conns(displaced)[..|displaced|] == Conns(displaced);
    }

    method WriteRecord(key: Key, record: Record)
      requires Valid()
      modifies this`nativeNames, this`nativeTokens
      ensures Valid()
      ensures View() == old(View()).(names := old(View()).names[key := record], tokens := old(View()).tokens[record.token := key])
    {
      nativeNames := nativeNames[key := record];
      nativeTokens := nativeTokens[record.token := key];
    }

    ghost method Meet(adapter: AgentAdapter)
      requires Valid() && adapter.conn !in known
      modifies this`known
      ensures Valid() && Knows(adapter) && known == old(known)[adapter.conn := adapter]
      ensures Heap() == old(Heap())[adapter.conn := adapter.Value()]
    {
      known := known[adapter.conn := adapter];
      assert Heap() == old(Heap())[adapter.conn := adapter.Value()];
    }

    method SetLive(adapter: AgentAdapter)
      requires Valid() && Knows(adapter)
      modifies this`adapters
      ensures Valid() && Live() == old(Live())[adapter.key := adapter.conn]
    {
      adapters := adapters[adapter.key := adapter];
      assert Live() == old(Live())[adapter.key := adapter.conn];
    }

    /** Makes a new session the live adapter of its identity. */
    method AddLive(adapter: AgentAdapter)
      requires Valid() && adapter.conn !in known
      modifies this`adapters, this`known
      ensures Valid() && Knows(adapter) && known == old(known)[adapter.conn := adapter]
      ensures View() == old(View()).(heap := old(View()).heap[adapter.conn := adapter.Value()],
                                     live := old(View()).live[adapter.key := adapter.conn])
    {
      Meet(adapter);
      SetLive(adapter);
    }

    /** The live indexes after a registration: the displaced leave their names, the new session takes its own. */
    method MakeLive(displaced: seq<AgentAdapter>, adapter: AgentAdapter)
      requires Valid() && (forall a :: a in displaced ==> Knows(a)) && adapter.conn !in known
      modifies this`adapters, this`known, this`nativeByName
      ensures Valid()
      ensures View() == old(View()).(
                heap := old(View()).heap[adapter.conn := adapter.Value()],
                live := old(View()).live[adapter.key := adapter.conn],
                byName := UnbindAll(old(View()), old(View()).byName, Conns(displaced), adapter.name)[SlotOf(adapter.Value()) := adapter.conn])
    {
      ghost var before := View();
      DisplacedKnown(displaced, known);
      AddLive(adapter);
      SameUnbinding(before, View(), before.byName, Conns(displaced), adapter.name);
      UnbindDisplaced(displaced, adapter.name);
      BindName(Slot(adapter.enrollment, adapter.name), adapter);
    }

    /** Writes the record and the token, saves, and only then makes the session live under its name. */
    method CommitIdentity(displaced: seq<AgentAdapter>, f: Frame, s: Supply, id: Identity, record: Record, ghost stored: Record)
      returns (result: Result<nat, Refusal>)
      requires Valid() && (forall a :: a in displaced ==> Knows(a)) && s.conn !in known
      modifies this
      ensures Valid()
      ensures (View(), result) == Commit(Absorbing(old(View()), stored, Conns(displaced)), f, s, id, record)
    {
      var slot := Slot(f.enrollment, record.name);
      if slot in nativeByName && nativeByName[slot] !in displaced {
        HeldByNone(displaced, nativeByName[slot]);
        return Err(NameHeldAtBind);
      }
      HeldByOne(displaced, slot);
      WriteRecord(id.key, record);
      if !s.saveOk {
        return Err(PersistenceFailed);
      }
      var adapter := new AgentAdapter(s.conn, id.key, f, record);
      MakeLive(displaced, adapter);
      return Ok(s.conn);
    }

    lemma HeldByOne(displaced: seq<AgentAdapter>, slot: Slot)
      requires slot in nativeByName ==> nativeByName[slot] in displaced
      ensures slot in Bound() ==> Bound()[slot] in Conns(displaced)
    {
      if slot in nativeByName {
        var i :| 0 <= i < |displaced| && displaced[i] == nativeByName[slot];
        assert Conns(displaced)[i] == Bound()[slot];
      }
    }

    static lemma DisplacedKnown(displaced: seq<AgentAdapter>, known: map<nat, AgentAdapter>)
      requires forall a :: a in displaced ==> a.conn in known
      ensures forall c :: c in Conns(displaced) ==> c in known
    {
      forall c | c in Conns(displaced) ensures c in known {
        var i :| 0 <= i < |displaced| && Conns(displaced)[i] == c;
        assert displaced[i] in displaced;
      }
    }

    lemma HeldByNone(displaced: seq<AgentAdapter>, held: AgentAdapter)
      requires Valid() && Knows(held) && held !in displaced && forall a :: a in displaced ==> Knows(a)
      ensures held.conn !in Conns(displaced)
    {
      forall i | 0 <= i < |displaced| ensures Conns(displaced)[i] != held.conn {
        assert displaced[i] in displaced;
      }
    }

    /** Gives the record its credential and next generation, then commits it. */
    method FinishRegistration(record: Record, displaced: seq<AgentAdapter>, f: Frame, s: Supply, id: Identity)
      returns (result: Result<nat, Refusal>)
      requires Valid() && (forall a :: a in displaced ==> Knows(a)) && s.conn !in known
      modifies this
      ensures Valid()
      ensures (View(), result) == Finish(Absorbing(old(View()), record, Conns(displaced)), f, s, id)
    {
      if !s.capabilityOk {
        return Err(CapabilityFailed);
      }
      var token := record.token;
      if token == "" {
        if s.token.None? {
          return Err(TokenFailed);
        }
        token := s.token.value;
      }
      result := CommitIdentity(displaced, f, s, id, record.(token := token, generation := record.generation + 1), record);
    }

    /** Registers a session; `order` is the order in which the map of names is visited. */
    method RegisterAgentAdapter(f: Frame, s: Supply) returns (result: Result<nat, Refusal>, order: seq<Key>)
      requires Valid() && s.conn !in known
      modifies this
      ensures Valid()
      ensures IsOrder(old(View()), order)
      ensures (View(), result) == Register(old(View()), f, s, order)
    {
      order := SomeOrder();
      if !f.harnessOk {
        return Err(UnsupportedHarness), order;
      }
      if f.sessionBlank {
        return Err(InvalidSession), order;
      }
      if !f.nameAllowed {
        return Err(InvalidName), order;
      }
      if !f.enrollmentKnown {
        return Err(UnknownEnrollment), order;
      }
      var id := IdentifyFrame(f, s);
      if id.Err? {
        return Err(id.error), order;
      }
      var refusal, record, displaced := NameIdentity(f, s, id.value, order);
      if refusal.Some? {
        return Err(refusal.value), order;
      }
      result := FinishRegistration(record, displaced, f, s, id.value);
    }
  }
}
