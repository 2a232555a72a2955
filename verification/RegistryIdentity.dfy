/**
 Whom a registering frame speaks for, and when its declared name is refused as held by
 another pane (daemon/adapter.go), told by the frame and the stored fields.
 */
module RegistryIdentity {
  import opened Common
  import opened RegistryModel
  import RegistryLaws

  /** The frame is well formed: harness, session, name and organization are accepted. */
  predicate WellFormed(f: Frame) {
    f.harnessOk && !f.sessionBlank && f.nameAllowed && f.enrollmentKnown
  }

  /** The frame's token was issued to a record of its own organization. */
  predicate TokenResolves(r: Registry, f: Frame) {
    f.token != "" && f.token in r.tokens && r.tokens[f.token] in r.names && r.names[r.tokens[f.token]].enrollment == f.enrollment
  }

  /** The declared name is bound to an adapter of another session in another pane. */
  predicate NameIsElsewhere(r: Registry, f: Frame) {
    var slot := Slot(f.enrollment, f.name);
    && slot in r.byName && r.byName[slot] in r.heap
    && r.heap[r.byName[slot]].session != f.session && r.heap[r.byName[slot]].pane != f.pane
  }

  /** The pane the frame is in shows a name, and another one than declared. */
  predicate PaneShowsAnother(f: Frame, s: Supply) {
    s.paneName != "" && s.paneName != f.name
  }

  /** What a registration can still be refused for once its frame is accepted. */
  lemma FinishRefusals(a: Absorbing, f: Frame, s: Supply, id: Identity)
    ensures Finish(a, f, s, id).1.Err? ==>
              Finish(a, f, s, id).1.error in {CapabilityFailed, TokenFailed, NameHeldAtBind, PersistenceFailed}
  {
  }

  lemma WellFormedRefusals(r: Registry, f: Frame, s: Supply, order: seq<Key>)
    requires WellFormed(f) && Register(r, f, s, order).1.Err?
    ensures Register(r, f, s, order).1.error !in {UnsupportedHarness, InvalidSession, InvalidName, UnknownEnrollment}
  {
    var id := Identify(r, f, s);
    if id.Ok? && Named(r, f, s, id.value, order).Ok? {
      FinishRefusals(Named(r, f, s, id.value, order).value, f, s, id.value);
    }
  }

  /** A malformed frame is refused before anything else, in the order of the checks. */
  lemma MalformedExact(r: Registry, f: Frame, s: Supply, order: seq<Key>)
    ensures var (r', result) := Register(r, f, s, order);
            && (result == Err(UnsupportedHarness) <==> !f.harnessOk)
            && (result == Err(InvalidSession) <==> f.harnessOk && f.sessionBlank)
            && (result == Err(InvalidName) <==> f.harnessOk && !f.sessionBlank && !f.nameAllowed)
            && (result == Err(UnknownEnrollment) <==> f.harnessOk && !f.sessionBlank && f.nameAllowed && !f.enrollmentKnown)
            && (!WellFormed(f) ==> r' == r)
  {
    if WellFormed(f) && Register(r, f, s, order).1.Err? {
      WellFormedRefusals(r, f, s, order);
    }
  }

  /**
   A well-formed frame is told its name is taken by another pane exactly if it presents no
   token of its organization, declares a name bound elsewhere, and its own pane shows no
   other name; and then nothing changes.
   */
  lemma HeldByPaneExact(r: Registry, f: Frame, s: Supply, order: seq<Key>)
    requires WellFormed(f)
    ensures var (r', result) := Register(r, f, s, order);
            && (result == Err(NameHeldByPane) <==>
                !TokenResolves(r, f) && f.name != "" && NameIsElsewhere(r, f) && !PaneShowsAnother(f, s))
            && (result == Err(NameHeldByPane) ==> r' == r)
  {
  }

  /** The identity a frame speaks for: its token's, else its declared name's unless that is elsewhere, else its session's. */
  function SpeaksFor(r: Registry, f: Frame): Key {
    if TokenResolves(r, f) then r.tokens[f.token]
    else if f.name != "" && !NameIsElsewhere(r, f) then NameKey(f.enrollment, f.name)
    else SessionKey(f.enrollment, f.session)
  }

  lemma IdentifiedAs(r: Registry, f: Frame, s: Supply)
    ensures Identify(r, f, s).Ok? ==> Identify(r, f, s).value.key == SpeaksFor(r, f)
  {
  }

  lemma NamedHere(r: Registry, f: Frame, s: Supply, id: Identity, order: seq<Key>)
    ensures Named(r, f, s, id, order).Ok? ==> Named(r, f, s, id, order).value.record.enrollment == f.enrollment
  {
    var start := Absorbing(r, RecordOf(r, id.key).(enrollment := f.enrollment), if id.key in r.live then [r.live[id.key]] else []);
    AbsorbedEnrollment(start, id.key, id.name, f.enrollment, order);
    AbsorbedEnrollment(start, id.key, s.paneName, f.enrollment, order);
  }

  lemma {:induction false} AbsorbedEnrollment(a: Absorbing, key: Key, name: string, enrollment: string, order: seq<Key>)
    ensures Absorb(a, key, name, enrollment, order).record.enrollment == a.record.enrollment
  {
    if order != [] {
      AbsorbedEnrollment(a, key, name, enrollment, order[..|order| - 1]);
    }
  }

  /** A registration that succeeds makes its connection the live adapter of that identity, with the frame's own session and pane. */
  lemma RegisteredAs(r: Registry, f: Frame, s: Supply, order: seq<Key>)
    requires Register(r, f, s, order).1.Ok?
    ensures var r' := Register(r, f, s, order).0;
            var key := SpeaksFor(r, f);
            && Register(r, f, s, order).1 == Ok(s.conn)
            && key in r'.live && r'.live[key] == s.conn && key in r'.names && s.conn in r'.heap
            && var a, record := r'.heap[s.conn], r'.names[key];
               && a.key == key && a.enrollment == f.enrollment && a.session == f.session && a.pane == f.pane
               && a.name == record.name && a.namedBy == record.namedBy && a.generation == record.generation && a.token == record.token
               && record.enrollment == f.enrollment && record.token in r'.tokens && r'.tokens[record.token] == key
               && Slot(f.enrollment, a.name) in r'.byName && r'.byName[Slot(f.enrollment, a.name)] == s.conn
  {
    IdentifiedAs(r, f, s);
    NamedHere(r, f, s, Identify(r, f, s).value, order);
  }

  // ---------------------------------------------------------------- names

  /** Under which name a registration ends, and by whose choice: declared, recorded, the pane's, or the generator's. */
  lemma NamedExact(r: Registry, f: Frame, s: Supply, order: seq<Key>)
    requires Register(r, f, s, order).1.Ok?
    ensures var key := SpeaksFor(r, f);
            var declared := if TokenResolves(r, f) || NameIsElsewhere(r, f) then "" else f.name;
            var placeholder := key in r.names && r.names[key].namedBy == ByAuto && s.paneName != "" && s.paneName != r.names[key].name;
            var r' := Register(r, f, s, order).0;
            && key in r'.names
            && var record := r'.names[key];
               if declared != "" then record.name == declared && record.namedBy == ByUser
               else if key in r.names && !placeholder then record.name == r.names[key].name && record.namedBy == r.names[key].namedBy
               else if s.paneName != "" then record.name == s.paneName && record.namedBy == ByHerdr
               else s.autoName == Some(record.name) && record.namedBy == ByAuto
  {
    IdentifiedAs(r, f, s);
    NamedHere(r, f, s, Identify(r, f, s).value, order);
  }

  /** A live adapter is renamed exactly if no other record of its organization has the name, nobody else is bound under it, and it is saved. */
  lemma RenameExact(r: Registry, conn: nat, name: string, namedBy: NamedBy, saveOk: bool)
    ensures var (r', error) := Rename(r, conn, name, namedBy, saveOk);
            var live := conn in r.heap && r.heap[conn].key in r.live && r.live[r.heap[conn].key] == conn;
            && (error == Some(AgentNotFound) <==> !live)
            && (live ==>
                  var a := r.heap[conn];
                  var taken := (exists k :: k in r.names && k != a.key && r.names[k].enrollment == a.enrollment && r.names[k].name == name)
                               || (Slot(a.enrollment, name) in r.byName && r.byName[Slot(a.enrollment, name)] != conn);
                  && (error == Some(NameClaimed) <==> taken)
                  && (error == Some(SaveFailed) <==> !taken && !saveOk)
                  && (error.None? <==> !taken && saveOk))
            && (error.Some? ==> r' == r)
  {
  }

  /** The record under its new name: the next generation, by whose choice, with the token it had. */
  predicate RenamedRecord(r: Registry, record: Record, a: Adapter, name: string, namedBy: NamedBy) {
    && record.name == name && record.namedBy == namedBy && record.enrollment == a.enrollment
    && (a.key in r.names ==> record.generation == r.names[a.key].generation + 1 && record.token == r.names[a.key].token)
  }

  /** And then its record, its adapter and its binding carry the name, by whose choice it is, and the next generation. */
  lemma RenamedExact(r: Registry, conn: nat, name: string, namedBy: NamedBy, saveOk: bool)
    requires Rename(r, conn, name, namedBy, saveOk).1.None?
    ensures var r' := Rename(r, conn, name, namedBy, saveOk).0;
            var a := r.heap[conn];
            && a.key in r'.names && conn in r'.heap
            && RenamedRecord(r, r'.names[a.key], a, name, namedBy)
            && r'.names == r.names[a.key := r'.names[a.key]]
            && r'.heap == r.heap[conn := a.(name := name, namedBy := namedBy, generation := r'.names[a.key].generation)]
            && r'.tokens == r.tokens && r'.live == r.live
            && Slot(a.enrollment, name) in r'.byName && r'.byName[Slot(a.enrollment, name)] == conn
            && (forall slot :: slot in r'.byName && slot != Slot(a.enrollment, name) ==>
                  slot in r.byName && r'.byName[slot] == r.byName[slot] && !(slot == SlotOf(a) && r.byName[slot] == conn))
            && (forall slot :: slot in r.byName && !(slot == SlotOf(a) && r.byName[slot] == conn) ==> slot in r'.byName)
  {
  }

  /** A pane's new name is followed exactly by an adapter that has its name from the pane. */
  lemma ReconcileExact(r: Registry, conn: nat, paneName: string, saveOk: bool)
    ensures Reconcile(r, conn, paneName, saveOk) ==
            if conn in r.heap && r.heap[conn].namedBy == ByHerdr && r.heap[conn].name != paneName
            then Rename(r, conn, paneName, ByHerdr, saveOk).0 else r
  {
  }

  /** A departure takes its identity off the live index, and its own binding, exactly while it is the live one. */
  lemma DepartureExact(r: Registry, conn: nat)
    ensures var r' := Deregister(r, conn);
            if conn in r.heap && r.heap[conn].key in r.live && r.live[r.heap[conn].key] == conn
            then
              && r'.names == r.names && r'.tokens == r.tokens && r'.heap == r.heap && r'.live == r.live - {r.heap[conn].key}
              && forall slot :: slot in r'.byName <==> slot in r.byName && !(slot == SlotOf(r.heap[conn]) && r.byName[slot] == conn)
            else r' == r
  {
  }

  // ---------------------------------------------------------------- an agent returns

  /** One agent, clem, registered from its session and pane. */
  const AT_HOME: Frame := Frame(true, false, true, true, "acme", "s1", "clem", "p1", "")
  const FIRST: Supply := Supply(1, "", None, true, Some("token"), true)
  const NEXT: Supply := Supply(2, "", None, true, Some("another"), true)
  const CLEM: Key := NameKey("acme", "clem")

  function Registered(): Registry {
    Registry(map[CLEM := Record("clem", ByUser, 1, "token", "acme")],
             map["token" := CLEM],
             map[1 := Adapter(CLEM, "acme", "s1", "p1", "clem", ByUser, 1, "token")],
             map[CLEM := 1],
             map[Slot("acme", "clem") := 1])
  }

  lemma ClemAtHome()
    ensures Register(EMPTY, AT_HOME, FIRST, []) == (Registered(), Ok(1))
  {
    assert |"clem"| == 4 && |"token"| == 5;
  }

  /** Another session in another pane that shows no name declares clem: it is refused, and clem keeps its name. */
  lemma OtherPaneRefused()
    ensures Register(Registered(), AT_HOME.(session := "s2", pane := "p2"), NEXT, [CLEM]) == (Registered(), Err(NameHeldByPane))
  {
    assert |"clem"| == 4 && |"s1"| == 2;
    assert "s1"[1] != "s2"[1] && "p1"[1] != "p2"[1];
  }

  /** Another session in the very pane, a resumed one, is let in, as clem and with clem's token. */
  lemma SamePaneResumes()
    ensures var (r', result) := Register(Registered(), AT_HOME.(session := "s2"), NEXT, [CLEM]);
            && result == Ok(2) && CLEM in r'.live && r'.live[CLEM] == 2
            && CLEM in r'.names && r'.names[CLEM].token == "token" && r'.names[CLEM].generation == 2
  {
    ClemReturns(AT_HOME.(session := "s2"));
  }

  /** So is the same session, wherever it reconnects from. */
  lemma SameSessionReconnects(pane: string)
    ensures var (r', result) := Register(Registered(), AT_HOME.(pane := pane), NEXT, [CLEM]);
            && result == Ok(2) && CLEM in r'.live && r'.live[CLEM] == 2
            && CLEM in r'.names && r'.names[CLEM].token == "token" && r'.names[CLEM].generation == 2
  {
    ClemReturns(AT_HOME.(pane := pane));
  }

  lemma ClemReturns(f: Frame)
    requires f == AT_HOME.(session := f.session, pane := f.pane) && (f.session == "s1" || f.pane == "p1")
    ensures var (r', result) := Register(Registered(), f, NEXT, [CLEM]);
            && result == Ok(2) && CLEM in r'.live && r'.live[CLEM] == 2
            && CLEM in r'.names && r'.names[CLEM].token == "token" && r'.names[CLEM].generation == 2
  {
    assert |"clem"| == 4 && |"token"| == 5 && [CLEM][..0] == [];
    var id := Identity(CLEM, ByName, "clem");
    assert Identify(Registered(), f, NEXT) == Ok(id);
    var start := Absorbing(Registered(), Registered().names[CLEM], [1]);
    assert Absorb(start, CLEM, "clem", "acme", [CLEM]) == start;
    assert Named(Registered(), f, NEXT, id, [CLEM]) == Ok(start);
  }
}
