/**
 The native identity registry of the daemon (daemon/adapter.go): durable name
 records, the token index, and the live adapters by identity and by name. Adapter
 objects are shared by several indexes, so they are kept in a heap of their own,
 addressed by the connection each one speaks over.
 */
module RegistryModel {
  import opened Common

  /** Identities are prefixed with their organization. */
  datatype Key = NameKey(enrollment: string, name: string) | SessionKey(enrollment: string, session: string)

  datatype NamedBy = ByUser | ByHerdr | ByAuto

  datatype Record = Record(name: string, namedBy: NamedBy, generation: nat, token: string, enrollment: string)

  datatype Adapter = Adapter(
    key: Key,
    enrollment: string,
    session: string,
    pane: string,
    name: string,
    namedBy: NamedBy,
    generation: nat,
    token: string)

  datatype Slot = Slot(enrollment: string, name: string)

  datatype Registry = Registry(
    names: map<Key, Record>,
    tokens: map<string, Key>,
    heap: map<nat, Adapter>,
    live: map<Key, nat>,
    byName: map<Slot, nat>)

  const EMPTY: Registry := Registry(map[], map[], map[], map[], map[])

  function SlotOf(a: Adapter): Slot {
    Slot(a.enrollment, a.name)
  }

  function Unbind(byName: map<Slot, nat>, slot: Slot, conn: nat): map<Slot, nat> {
    if slot in byName && byName[slot] == conn then byName - {slot} else byName
  }

  // ---------------------------------------------------------------- registration

  datatype Frame = Frame(
    harnessOk: bool,
    sessionBlank: bool,
    nameAllowed: bool,        // absent, or matching the pattern and not reserved
    enrollmentKnown: bool,
    enrollment: string,       // the organization the frame resolves to
    session: string,
    name: string,             // "" when none is declared
    pane: string,
    token: string)            // "" when none is presented

  /** Values the registration draws from outside. */
  datatype Supply = Supply(
    conn: nat,                // the socket connection
    paneName: string,         // the name of the agent in the declared pane, "" when there is none
    autoName: Option<string>, // what the name generator allocates
    capabilityOk: bool,
    token: Option<string>,    // what the token generator yields
    saveOk: bool)

  datatype Anchor = ByToken | ByName | BySession

  datatype Refusal =
    | UnsupportedHarness
    | InvalidSession
    | InvalidName
    | UnknownEnrollment
    | NameHeldByPane          // "name_taken" before anything is touched
    | NameAllocationFailed
    | CapabilityFailed
    | TokenFailed
    | NameHeldAtBind          // "name_taken" just before the records are written
    | PersistenceFailed

  function ResolveKey(r: Registry, f: Frame): (Key, Anchor) {
    if f.token != "" && f.token in r.tokens && r.tokens[f.token] in r.names
       && r.names[r.tokens[f.token]].enrollment == f.enrollment
    then (r.tokens[f.token], ByToken)
    else if f.name != "" then (NameKey(f.enrollment, f.name), ByName)
    else (SessionKey(f.enrollment, f.session), BySession)
  }

  /** Another session in another pane already answers to the declared name. */
  predicate HeldElsewhere(r: Registry, f: Frame) {
    var slot := Slot(f.enrollment, f.name);
    && slot in r.byName && r.byName[slot] in r.heap
    && r.heap[r.byName[slot]].session != f.session
    && r.heap[r.byName[slot]].pane != f.pane
  }

  datatype Identity = Identity(key: Key, anchor: Anchor, name: string)

  /** Which identity the frame speaks for, and the declared name that still counts. */
  function Identify(r: Registry, f: Frame, s: Supply): Result<Identity, Refusal> {
    var (key, anchor) := ResolveKey(r, f);
    if anchor == ByToken then Ok(Identity(key, anchor, ""))
    else if anchor == ByName && HeldElsewhere(r, f) then
      if s.paneName != "" && s.paneName != f.name
      then Ok(Identity(SessionKey(f.enrollment, f.session), BySession, ""))
      else Err(NameHeldByPane)
    else Ok(Identity(key, anchor, f.name))
  }

  datatype Absorbing = Absorbing(reg: Registry, record: Record, displaced: seq<nat>)

  predicate Absorbs(names: map<Key, Record>, other: Key, key: Key, name: string, enrollment: string) {
    other in names && other != key && names[other].name == name && names[other].enrollment == enrollment
  }

  /** One stale record of the same name is folded into the identity. */
  function AbsorbOne(a: Absorbing, key: Key, name: string, enrollment: string, other: Key): Absorbing {
    if !Absorbs(a.reg.names, other, key, name, enrollment) then a
    else
      var stale := a.reg.names[other];
      Absorbing(
        a.reg.(names := a.reg.names - {other}, tokens := a.reg.tokens - {stale.token}, live := a.reg.live - {other}),
        a.record.(generation := Max(a.record.generation, stale.generation),
                  token := if a.record.token == "" then stale.token else a.record.token),
        if other in a.reg.live then a.displaced + [a.reg.live[other]] else a.displaced)
  }

  /** `absorbNameLocked`, for one order in which the records are visited. */
  function Absorb(a: Absorbing, key: Key, name: string, enrollment: string, order: seq<Key>): Absorbing {
    if order == [] then a
    else AbsorbOne(Absorb(a, key, name, enrollment, order[..|order| - 1]), key, name, enrollment, order[|order| - 1])
  }

  const NO_RECORD: Record := Record("", ByUser, 0, "", "")

  function RecordOf(r: Registry, key: Key): Record {
    if key in r.names then r.names[key] else NO_RECORD
  }

  /** The state of a registration once its name is decided. */
  function Named(r: Registry, f: Frame, s: Supply, id: Identity, order: seq<Key>): Result<Absorbing, Refusal> {
    var start := Absorbing(r, RecordOf(r, id.key).(enrollment := f.enrollment),
                           if id.key in r.live then [r.live[id.key]] else []);
    if id.name != "" then
      var a := Absorb(start, id.key, id.name, f.enrollment, order);
      Ok(a.(record := a.record.(name := id.name, namedBy := ByUser)))
    else if id.key in r.names
            && !(start.record.namedBy == ByAuto && s.paneName != "" && s.paneName != start.record.name)
    then Ok(start)
    else if s.paneName != "" then
      var a := Absorb(start, id.key, s.paneName, f.enrollment, order);
      Ok(a.(record := a.record.(name := s.paneName, namedBy := ByHerdr)))
    else if s.autoName.None? then Err(NameAllocationFailed)
    else Ok(start.(record := start.record.(name := s.autoName.value, namedBy := ByAuto)))
  }

  function UnbindAll(r: Registry, byName: map<Slot, nat>, displaced: seq<nat>, name: string): map<Slot, nat> {
    if displaced == [] then byName
    else
      var b := UnbindAll(r, byName, displaced[..|displaced| - 1], name);
      var conn := displaced[|displaced| - 1];
      if conn in r.heap && r.heap[conn].name != name then Unbind(b, SlotOf(r.heap[conn]), conn) else b
  }

  function NewAdapter(f: Frame, id: Identity, record: Record): Adapter {
    Adapter(id.key, f.enrollment, f.session, f.pane, record.name, record.namedBy, record.generation, record.token)
  }

  /** The record with a credential and the next generation. */
  function Sealed(record: Record, s: Supply): Result<Record, Refusal> {
    if !s.capabilityOk then Err(CapabilityFailed)
    else if record.token == "" && s.token.None? then Err(TokenFailed)
    else Ok(record.(token := if record.token == "" then s.token.value else record.token,
                    generation := record.generation + 1))
  }

  /** Writing the records and, if they are saved, the live indexes. */
  function Commit(a: Absorbing, f: Frame, s: Supply, id: Identity, record: Record): (Registry, Result<nat, Refusal>) {
    var adapter := NewAdapter(f, id, record);
    if SlotOf(adapter) in a.reg.byName && a.reg.byName[SlotOf(adapter)] !in a.displaced then (a.reg, Err(NameHeldAtBind))
    else
      var written := a.reg.(names := a.reg.names[id.key := record], tokens := a.reg.tokens[record.token := id.key]);
      if !s.saveOk then (written, Err(PersistenceFailed))
      else
        (written.(heap := written.heap[s.conn := adapter],
                  live := written.live[id.key := s.conn],
                  byName := UnbindAll(written, written.byName, a.displaced, record.name)[SlotOf(adapter) := s.conn]),
         Ok(s.conn))
  }

  function Finish(a: Absorbing, f: Frame, s: Supply, id: Identity): (Registry, Result<nat, Refusal>) {
    var sealed := Sealed(a.record, s);
    if sealed.Err? then (a.reg, Err(sealed.error)) else Commit(a, f, s, id, sealed.value)
  }

  function Register(r: Registry, f: Frame, s: Supply, order: seq<Key>): (Registry, Result<nat, Refusal>) {
    if !f.harnessOk then (r, Err(UnsupportedHarness))
    else if f.sessionBlank then (r, Err(InvalidSession))
    else if !f.nameAllowed then (r, Err(InvalidName))
    else if !f.enrollmentKnown then (r, Err(UnknownEnrollment))
    else
      var id := Identify(r, f, s);
      if id.Err? then (r, Err(id.error))
      else
        var named := Named(r, f, s, id.value, order);
        if named.Err? then (r, Err(named.error))
        else Finish(named.value, f, s, id.value)
  }

  // ---------------------------------------------------------------- rename, reconcile, deregister

  datatype ClaimError = AgentNotFound | NameClaimed | SaveFailed

  function Deregister(r: Registry, conn: nat): Registry {
    if conn !in r.heap then r
    else
      var a := r.heap[conn];
      if a.key in r.live && r.live[a.key] == conn
      then r.(live := r.live - {a.key}, byName := Unbind(r.byName, SlotOf(a), conn))
      else r
  }

  predicate ClaimedByAnother(r: Registry, a: Adapter, conn: nat, name: string) {
    || (exists key :: key in r.names && key != a.key && r.names[key].name == name && r.names[key].enrollment == a.enrollment)
    || (Slot(a.enrollment, name) in r.byName && r.byName[Slot(a.enrollment, name)] != conn)
  }

  /** An adapter's identity renamed on the object, in its record and in the binding. */
  function RenamedTo(r: Registry, conn: nat, name: string, namedBy: NamedBy): Registry
    requires conn in r.heap
  {
    var a := r.heap[conn];
    var previous := RecordOf(r, a.key);
    var generation := previous.generation + 1;
    r.(names := r.names[a.key := Record(name, namedBy, generation, previous.token, a.enrollment)],
       heap := r.heap[conn := a.(name := name, namedBy := namedBy, generation := generation)],
       byName := Unbind(r.byName, SlotOf(a), conn)[Slot(a.enrollment, name) := conn])
  }

  function Rename(r: Registry, conn: nat, name: string, namedBy: NamedBy, saveOk: bool): (Registry, Option<ClaimError>) {
    if conn !in r.heap || r.heap[conn].key !in r.live || r.live[r.heap[conn].key] != conn then (r, Some(AgentNotFound))
    else if ClaimedByAnother(r, r.heap[conn], conn, name) then (r, Some(NameClaimed))
    else if !saveOk then (r, Some(SaveFailed))
    else (RenamedTo(r, conn, name, namedBy), None)
  }

  /** One candidate of `reconcileHerdrAdapterNames`, rechecked under the lock. */
  function Reconcile(r: Registry, conn: nat, paneName: string, saveOk: bool): Registry {
    if conn !in r.heap || r.heap[conn].namedBy != ByHerdr || r.heap[conn].name == paneName then r
    else Rename(r, conn, paneName, ByHerdr, saveOk).0
  }

  // ---------------------------------------------------------------- invariant

  ghost predicate Inv(r: Registry) {
    NamesUnique(r) && TokensInverse(r) && LiveRecorded(r) && BoundExactly(r)
  }

  /** A name belongs to one record of an organization. */
  ghost predicate NamesUnique(r: Registry) {
    && (forall k :: k in r.names ==> r.names[k].enrollment == k.enrollment)
    && (forall k, k' :: k in r.names && k' in r.names && k.enrollment == k'.enrollment && r.names[k].name == r.names[k'].name
          ==> k == k')
  }

  /** The token index is the exact inverse of the tokens the records carry. */
  ghost predicate TokensInverse(r: Registry) {
    && (forall t :: t in r.tokens ==> t != "" && r.tokens[t] in r.names && r.names[r.tokens[t]].token == t)
    && (forall k :: k in r.names && r.names[k].token != "" ==>
          r.names[k].token in r.tokens && r.tokens[r.names[k].token] == k)
  }

  ghost predicate LiveRecorded(r: Registry) {
    forall k :: k in r.live ==> RecordedAs(r, k)
  }

  ghost predicate RecordedAs(r: Registry, k: Key)
    requires k in r.live
  {
    && r.live[k] in r.heap && k in r.names
    && r.heap[r.live[k]].key == k
    && r.heap[r.live[k]].enrollment == k.enrollment
    && r.heap[r.live[k]].name == r.names[k].name
    && r.heap[r.live[k]].generation == r.names[k].generation
  }

  /** An adapter is bound under a name exactly when it is the live adapter of its identity and its record has that name. */
  ghost predicate BoundExactly(r: Registry) {
    && (forall k :: k in r.live && r.live[k] in r.heap ==>
          SlotOf(r.heap[r.live[k]]) in r.byName && r.byName[SlotOf(r.heap[r.live[k]])] == r.live[k])
    && (forall slot :: slot in r.byName ==> BoundLive(r, slot))
  }

  ghost predicate BoundLive(r: Registry, slot: Slot)
    requires slot in r.byName
  {
    && r.byName[slot] in r.heap
    && SlotOf(r.heap[r.byName[slot]]) == slot
    && r.heap[r.byName[slot]].key in r.live
    && r.live[r.heap[r.byName[slot]].key] == r.byName[slot]
  }

  /** A generator that draws names nobody has, tokens nobody was given, and a new connection. */
  ghost predicate GoodSupply(r: Registry, f: Frame, s: Supply) {
    && s.conn !in r.heap
    && (s.token.Some? ==> s.token.value != "" && s.token.value !in r.tokens)
    && (s.autoName.Some? ==> forall k :: k in r.names && k.enrollment == f.enrollment ==> r.names[k].name != s.autoName.value)
  }

  /** The map is visited completely, each record once. */
  ghost predicate IsOrder(r: Registry, order: seq<Key>) {
    && (forall k :: k in r.names <==> k in order)
    && (forall i, j :: 0 <= i < j < |order| ==> order[i] != order[j])
  }
}
