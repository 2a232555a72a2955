/**
 What the identity registry keeps even when registrations fail half way
 (daemon/adapter.go): the durable records and the token index. A late failure can leave
 the live indexes behind (`RegistryLaws.LateFailureExact`), and what comes after starts
 from there.
 */
module RegistryRecords {
  import opened Common
  import opened RegistryModel
  import opened RegistryLaws

  /** Names unique, tokens inverse, and every live adapter one of its recorded identity's. */
  ghost predicate Durable(r: Registry) {
    NamesUnique(r) && TokensInverse(r) && LiveKeyed(r) && HeapKeyed(r)
  }

  ghost predicate LiveKeyed(r: Registry) {
    forall k :: k in r.live ==> k in r.names && r.live[k] in r.heap && r.heap[r.live[k]].key == k
  }

  ghost predicate HeapKeyed(r: Registry) {
    forall c :: c in r.heap ==> r.heap[c].enrollment == r.heap[c].key.enrollment
  }

  /** Supplies are fresh; capability, token and save may all fail. */
  ghost predicate Possible(r: Registry, op: RegistryOp) {
    op.DoRegister? ==> GoodSupply(r, op.frame, op.supply) && IsOrder(r, op.order)
  }

  /** The state once a name is decided: nobody else has it, and the credential is nobody else's. */
  ghost predicate Ready(r: Registry, a: Absorbing, key: Key, enrollment: string) {
    && Durable(a.reg)
    && key.enrollment == enrollment == a.record.enrollment
    && (forall k :: k in a.reg.names && k != key && k.enrollment == enrollment ==> a.reg.names[k].name != a.record.name)
    && (key in a.reg.names && a.reg.names[key].token != "" ==> a.record.token == a.reg.names[key].token)
    && (forall k :: k in a.reg.names && k != key && a.record.token != "" ==> a.reg.names[k].token != a.record.token)
    && (forall t :: t in a.reg.tokens ==> t in r.tokens)
    && a.reg.heap == r.heap
  }

  function WithName(a: Absorbing, name: string, namedBy: NamedBy): Absorbing {
    a.(record := a.record.(name := name, namedBy := namedBy))
  }

  lemma StartReady(r: Registry, key: Key, enrollment: string, name: string, namedBy: NamedBy)
    requires Durable(r) && key.enrollment == enrollment
    requires forall k :: k in r.names && k != key && k.enrollment == enrollment ==> r.names[k].name != name
    ensures Ready(r, WithName(Start(r, key, enrollment), name, namedBy), key, enrollment)
  {
  }

  lemma FoldDurable(r: Registry, key: Key, enrollment: string, name: string, rival: Key)
    requires Durable(r) && Absorbs(r.names, rival, key, name, enrollment)
    ensures Durable(AbsorbOne(Start(r, key, enrollment), key, name, enrollment, rival).reg)
  {
    var reg := AbsorbOne(Start(r, key, enrollment), key, name, enrollment, rival).reg;
    assert NamesUnique(reg) && TokensInverse(reg) && LiveKeyed(reg) && HeapKeyed(reg);
  }

  lemma FoldReady(r: Registry, key: Key, enrollment: string, name: string, namedBy: NamedBy, rival: Key)
    requires Durable(r) && key.enrollment == enrollment && Absorbs(r.names, rival, key, name, enrollment)
    ensures Ready(r, WithName(AbsorbOne(Start(r, key, enrollment), key, name, enrollment, rival), name, namedBy), key, enrollment)
  {
    FoldDurable(r, key, enrollment, name, rival);
  }

  lemma AbsorbReady(r: Registry, key: Key, enrollment: string, name: string, namedBy: NamedBy, order: seq<Key>)
    requires Durable(r) && key.enrollment == enrollment && IsOrder(r, order)
    ensures Ready(r, WithName(Absorb(Start(r, key, enrollment), key, name, enrollment, order), name, namedBy), key, enrollment)
  {
    var start := Start(r, key, enrollment);
    if rival :| Absorbs(r.names, rival, key, name, enrollment) {
      AbsorbRival(start, key, name, enrollment, order, rival);
      FoldReady(r, key, enrollment, name, namedBy, rival);
    } else {
      AbsorbNothing(start, key, name, enrollment, order);
      forall k | k in r.names && k != key && k.enrollment == enrollment ensures r.names[k].name != name {
        assert !Absorbs(r.names, k, key, name, enrollment);
      }
      StartReady(r, key, enrollment, name, namedBy);
    }
  }

  lemma NamedReady(r: Registry, f: Frame, s: Supply, id: Identity, order: seq<Key>)
    requires Durable(r) && GoodSupply(r, f, s) && IsOrder(r, order) && id.key.enrollment == f.enrollment
    requires Named(r, f, s, id, order).Ok?
    ensures Ready(r, Named(r, f, s, id, order).value, id.key, f.enrollment)
  {
    var start := Start(r, id.key, f.enrollment);
    if id.name != "" {
      AbsorbReady(r, id.key, f.enrollment, id.name, ByUser, order);
    } else if id.key in r.names && !(start.record.namedBy == ByAuto && s.paneName != "" && s.paneName != start.record.name) {
      StartReady(r, id.key, f.enrollment, start.record.name, start.record.namedBy);
    } else if s.paneName != "" {
      AbsorbReady(r, id.key, f.enrollment, s.paneName, ByHerdr, order);
    } else {
      StartReady(r, id.key, f.enrollment, s.autoName.value, ByAuto);
    }
  }

  lemma WrittenDurable(r: Registry, a: Absorbing, f: Frame, s: Supply, key: Key, record: Record)
    requires Ready(r, a, key, f.enrollment) && GoodSupply(r, f, s) && TokensInverse(r)
    requires Sealed(a.record, s) == Ok(record)
    ensures Durable(Written(a, key, record))
  {
    assert record.token != "";
    forall k | k in a.reg.names && k != key ensures a.reg.names[k].token != record.token {
      if a.record.token == "" && a.reg.names[k].token != "" {
        assert a.reg.names[k].token in a.reg.tokens;
      }
    }
    var w := Written(a, key, record);
    assert NamesUnique(w) && LiveKeyed(w) && HeapKeyed(w);
    WrittenTokens(a, key, record);
  }

  lemma WrittenTokens(a: Absorbing, key: Key, record: Record)
    requires TokensInverse(a.reg) && record.token != ""
    requires forall k :: k in a.reg.names && k != key ==> a.reg.names[k].token != record.token
    requires key in a.reg.names && a.reg.names[key].token != "" ==> a.reg.names[key].token == record.token
    ensures TokensInverse(Written(a, key, record))
  {
  }

  lemma FinishDurable(r: Registry, a: Absorbing, f: Frame, s: Supply, id: Identity)
    requires Ready(r, a, id.key, f.enrollment) && GoodSupply(r, f, s) && TokensInverse(r)
    ensures Durable(Finish(a, f, s, id).0)
  {
    if Sealed(a.record, s).Ok? {
      var record := Sealed(a.record, s).value;
      WrittenDurable(r, a, f, s, id.key, record);
      CommitDurable(a, f, s, id, record);
    }
  }

  lemma CommitDurable(a: Absorbing, f: Frame, s: Supply, id: Identity, record: Record)
    requires Durable(a.reg) && Durable(Written(a, id.key, record)) && s.conn !in a.reg.heap && id.key.enrollment == f.enrollment
    ensures Durable(Commit(a, f, s, id, record).0)
  {
    var w, r' := Written(a, id.key, record), Commit(a, f, s, id, record).0;
    if r' != a.reg {
      SameRecords(w, r');
    }
  }

  lemma IdentifiedHere(r: Registry, f: Frame, s: Supply)
    requires NamesUnique(r) && Identify(r, f, s).Ok?
    ensures Identify(r, f, s).value.key.enrollment == f.enrollment
  {
  }

  lemma RegisterDurable(r: Registry, f: Frame, s: Supply, order: seq<Key>)
    requires Durable(r) && GoodSupply(r, f, s) && IsOrder(r, order)
    ensures Durable(Register(r, f, s, order).0)
  {
    var id := Identify(r, f, s);
    if id.Ok? {
      IdentifiedHere(r, f, s);
      if Named(r, f, s, id.value, order).Ok? {
        NamedReady(r, f, s, id.value, order);
        FinishDurable(r, Named(r, f, s, id.value, order).value, f, s, id.value);
      }
    }
  }

  /** A record rewritten under a name nobody else has, keeping its token. */
  lemma RewrittenRecord(r: Registry, r': Registry, key: Key, record: Record)
    requires NamesUnique(r) && TokensInverse(r) && key in r.names
    requires record.token == r.names[key].token && record.enrollment == key.enrollment
    requires forall k :: k in r.names && k != key && k.enrollment == key.enrollment ==> r.names[k].name != record.name
    requires r'.names == r.names[key := record] && r'.tokens == r.tokens
    ensures NamesUnique(r') && TokensInverse(r')
  {
  }

  lemma UnclaimedName(r: Registry, a: Adapter, conn: nat, name: string)
    requires NamesUnique(r) && !ClaimedByAnother(r, a, conn, name)
    ensures forall k :: k in r.names && k != a.key && k.enrollment == a.enrollment ==> r.names[k].name != name
  {
  }

  lemma RenamedNames(r: Registry, conn: nat, name: string, namedBy: NamedBy, saveOk: bool)
    requires Durable(r) && Rename(r, conn, name, namedBy, saveOk).1.None?
    ensures NamesUnique(Rename(r, conn, name, namedBy, saveOk).0) && TokensInverse(Rename(r, conn, name, namedBy, saveOk).0)
  {
    var a := r.heap[conn];
    UnclaimedName(r, a, conn, name);
    var r' := RenamedTo(r, conn, name, namedBy);
    RewrittenRecord(r, r', a.key, r'.names[a.key]);
  }

  lemma RenamedLive(r: Registry, conn: nat, name: string, namedBy: NamedBy, saveOk: bool)
    requires Durable(r) && Rename(r, conn, name, namedBy, saveOk).1.None?
    ensures LiveKeyed(Rename(r, conn, name, namedBy, saveOk).0) && HeapKeyed(Rename(r, conn, name, namedBy, saveOk).0)
  {
  }

  lemma RenameDurable(r: Registry, conn: nat, name: string, namedBy: NamedBy, saveOk: bool)
    requires Durable(r)
    ensures Durable(Rename(r, conn, name, namedBy, saveOk).0)
  {
    if Rename(r, conn, name, namedBy, saveOk).1.None? {
      RenamedNames(r, conn, name, namedBy, saveOk);
      RenamedLive(r, conn, name, namedBy, saveOk);
    }
  }

  lemma DeregisterDurable(r: Registry, conn: nat)
    requires Durable(r)
    ensures Durable(Deregister(r, conn))
  {
    SameRecords(r, Deregister(r, conn));
  }

  lemma StepDurable(r: Registry, op: RegistryOp)
    requires Durable(r) && Possible(r, op)
    ensures Durable(Apply(r, op))
  {
    match op
    case DoRegister(f, s, order) => RegisterDurable(r, f, s, order);
    case DoRename(conn, name, namedBy, saveOk) => RenameDurable(r, conn, name, namedBy, saveOk);
    case DoReconcile(conn, paneName, saveOk) => RenameDurable(r, conn, paneName, ByHerdr, saveOk);
    case DoDeregister(conn) => DeregisterDurable(r, conn);
  }

  ghost predicate PossibleRun(r: Registry, ops: seq<RegistryOp>)
    decreases |ops|
  {
    ops == [] || (Possible(r, ops[0]) && PossibleRun(Apply(r, ops[0]), ops[1..]))
  }

  /**
   Over every run, wherever its registrations fail, names stay unique within an
   organization, the token index stays the exact inverse of the records' tokens, and
   whoever is live has a record.
   */
  lemma {:induction false} RecordsStayExact(r: Registry, ops: seq<RegistryOp>)
    requires Durable(r) && PossibleRun(r, ops)
    ensures Durable(RegistryLaws.Run(r, ops))
    decreases |ops|
  {
    if ops != [] {
      StepDurable(r, ops[0]);
      RecordsStayExact(Apply(r, ops[0]), ops[1..]);
    }
  }

  lemma ReachableRecords(ops: seq<RegistryOp>)
    requires PossibleRun(EMPTY, ops)
    ensures Durable(RegistryLaws.Run(EMPTY, ops))
  {
    RecordsStayExact(EMPTY, ops);
  }

  // ---------------------------------------------------------------- when the live indexes stay exact too

  /** The frame is accepted, and the registration gets as far as deciding its name. */
  predicate Deciding(r: Registry, f: Frame, s: Supply, order: seq<Key>) {
    && f.harnessOk && !f.sessionBlank && f.nameAllowed && f.enrollmentKnown
    && Identify(r, f, s).Ok? && Named(r, f, s, Identify(r, f, s).value, order).Ok?
  }

  /** A registration cannot draw a credential after absorbing another's live adapter, or cannot save after displacing any. */
  ghost predicate Breaks(r: Registry, op: RegistryOp) {
    && op.DoRegister? && Deciding(r, op.frame, op.supply, op.order)
    && var a := Named(r, op.frame, op.supply, Identify(r, op.frame, op.supply).value, op.order).value;
       if Sealed(a.record, op.supply).Err? then TakesOverLive(r, op.frame, op.supply, op.order)
       else !op.supply.saveOk && a.displaced != []
  }

  lemma StepKeepsExact(r: Registry, op: RegistryOp)
    requires Inv(r) && Possible(r, op)
    ensures Inv(Apply(r, op)) <==> !Breaks(r, op)
  {
    match op
    case DoRegister(f, s, order) =>
      LateFailureExact(r, f, s, order);
      RegisterKeeps(r, f, s, order);
      EarlyRefusalChangesNothing(r, f, s, order);
    case DoRename(conn, name, namedBy, saveOk) => RenameKeeps(r, conn, name, namedBy, saveOk);
    case DoReconcile(conn, paneName, saveOk) => RenameKeeps(r, conn, paneName, ByHerdr, saveOk);
    case DoDeregister(conn) => DeregisterKeeps(r, conn);
  }

  ghost predicate ExactThroughout(r: Registry, ops: seq<RegistryOp>)
    decreases |ops|
  {
    Inv(r) && (ops != [] ==> ExactThroughout(Apply(r, ops[0]), ops[1..]))
  }

  ghost predicate EverBreaks(r: Registry, ops: seq<RegistryOp>)
    decreases |ops|
  {
    ops != [] && (Breaks(r, ops[0]) || EverBreaks(Apply(r, ops[0]), ops[1..]))
  }

  /** Every index is exact throughout a run, whatever fails in it, exactly when no late failure took a live adapter out. */
  lemma {:induction false} RunKeepsExact(r: Registry, ops: seq<RegistryOp>)
    requires Inv(r) && PossibleRun(r, ops)
    ensures ExactThroughout(r, ops) <==> !EverBreaks(r, ops)
    decreases |ops|
  {
    if ops != [] {
      StepKeepsExact(r, ops[0]);
      if !Breaks(r, ops[0]) {
        RunKeepsExact(Apply(r, ops[0]), ops[1..]);
      }
    }
  }

  lemma ReachableExact(ops: seq<RegistryOp>)
    requires PossibleRun(EMPTY, ops)
    ensures ExactThroughout(EMPTY, ops) <==> !EverBreaks(EMPTY, ops)
  {
    RunKeepsExact(EMPTY, ops);
  }

  // ---------------------------------------------------------------- a displaced connection, whenever it closes

  lemma StepLeavesDeparted(r: Registry, op: RegistryOp, conn: nat)
    requires Possible(r, op) && LiveNowhere(r, conn)
    ensures LiveNowhere(Apply(r, op), conn)
  {
    if op.DoRegister? {
      RegisterMakesOwnLive(r, op.frame, op.supply, op.order);
    }
  }

  lemma {:induction false} RunLeavesDeparted(r: Registry, ops: seq<RegistryOp>, conn: nat)
    requires PossibleRun(r, ops) && LiveNowhere(r, conn)
    ensures LiveNowhere(RegistryLaws.Run(r, ops), conn)
    decreases |ops|
  {
    if ops != [] {
      StepLeavesDeparted(r, ops[0], conn);
      RunLeavesDeparted(Apply(r, ops[0]), ops[1..], conn);
    }
  }

  /** A displaced connection may close at any later time, after any run, late failures included: it changes nothing. */
  lemma DisplacedDepartureStaysSilent(r: Registry, f: Frame, s: Supply, order: seq<Key>, conn: nat, ops: seq<RegistryOp>)
    requires Inv(r) && GoodSupply(r, f, s) && IsOrder(r, order) && Register(r, f, s, order).1.Ok?
    requires conn in Displaced(r, f, s, order) && PossibleRun(Register(r, f, s, order).0, ops)
    ensures var end := RegistryLaws.Run(Register(r, f, s, order).0, ops); Deregister(end, conn) == end
  {
    DisplacedIsNowhere(r, f, s, order, conn);
    RunLeavesDeparted(Register(r, f, s, order).0, ops, conn);
  }
}
