/**
 Single-flight delivery in the daemon (daemon/deliver.go): concurrent calls for one
 (enrollment, message, agent) share one attempt. The mutex-protected stretches of
 `deliver` are the steps; any number of calls may be between any two of them.
 */
module Flights {
  import opened Common

  datatype Key = Key(enrollment: string, id: string, agent: string)

  datatype Outcome = Outcome(code: string, retryable: bool, failed: bool)

  datatype Flight = Flight(key: Key, leader: nat, result: Option<Outcome>)

  datatype Phase =
    | Leading(flight: nat)                    // deliverOnce is running
    | Landed(flight: nat)                     // outcome stored and done closed, table entry still there
    | Following(flight: nat)                  // waiting on the leader's flight
    | Returned(flight: nat, outcome: Outcome)
    | Cancelled(flight: nat)                  // the caller's context ended first

  datatype Call = Call(key: Key, phase: Phase)

  datatype Table = Table(inflight: map<Key, nat>, flights: map<nat, Flight>, calls: map<nat, Call>)

  const IDLE: Table := Table(map[], map[], map[])

  datatype Step =
    | Enter(call: nat, key: Key, flight: nat)   // `flight` is the new object, should one be needed
    | Land(call: nat, outcome: Outcome)
    | Remove(call: nat)
    | Adopt(call: nat)
    | Cancel(call: nat)

  predicate Enabled(t: Table, step: Step) {
    match step
    case Enter(c, _, f) => c !in t.calls && f !in t.flights
    case Land(c, _) => c in t.calls && t.calls[c].phase.Leading?
    case Remove(c) => c in t.calls && t.calls[c].phase.Landed? && t.calls[c].phase.flight in t.flights
                      && t.flights[t.calls[c].phase.flight].result.Some?
    case Adopt(c) => c in t.calls && t.calls[c].phase.Following? && t.calls[c].phase.flight in t.flights
                     && t.flights[t.calls[c].phase.flight].result.Some?
    case Cancel(c) => c in t.calls && t.calls[c].phase.Following?
  }

  function Next(t: Table, step: Step): Table
    requires Enabled(t, step)
  {
    match step
    case Enter(c, key, f) =>
      if key in t.inflight then t.(calls := t.calls[c := Call(key, Following(t.inflight[key]))])
      else Table(t.inflight[key := f], t.flights[f := Flight(key, c, None)], t.calls[c := Call(key, Leading(f))])
    case Land(c, outcome) =>
      var f := t.calls[c].phase.flight;
      if f !in t.flights then t
      else t.(flights := t.flights[f := t.flights[f].(result := Some(outcome))],
              calls := t.calls[c := t.calls[c].(phase := Landed(f))])
    case Remove(c) =>
      var f := t.calls[c].phase.flight;
      var key := t.calls[c].key;
      t.(inflight := if key in t.inflight && t.inflight[key] == f then t.inflight - {key} else t.inflight,
         calls := t.calls[c := t.calls[c].(phase := Returned(f, t.flights[f].result.value))])
    case Adopt(c) =>
      var f := t.calls[c].phase.flight;
      t.(calls := t.calls[c := t.calls[c].(phase := Returned(f, t.flights[f].result.value))])
    case Cancel(c) =>
      t.(calls := t.calls[c := t.calls[c].(phase := Cancelled(t.calls[c].phase.flight))])
  }

  ghost predicate Inv(t: Table) {
    && (forall k :: k in t.inflight ==> Airborne(t, k))
    && (forall c :: c in t.calls ==> Tracked(t, c))
  }

  /** A table entry belongs to a call that has not removed it yet. */
  ghost predicate Airborne(t: Table, k: Key)
    requires k in t.inflight
  {
    var f := t.inflight[k];
    && f in t.flights && t.flights[f].key == k && t.flights[f].leader in t.calls
    && t.calls[t.flights[f].leader].phase in {Leading(f), Landed(f)}
  }

  ghost predicate Tracked(t: Table, c: nat)
    requires c in t.calls
  {
    var call := t.calls[c];
    && call.phase.flight in t.flights
    && t.flights[call.phase.flight].key == call.key
    && match call.phase
       case Leading(f) => t.flights[f].leader == c && t.flights[f].result.None? && call.key in t.inflight && t.inflight[call.key] == f
       case Landed(f) => t.flights[f].leader == c && t.flights[f].result.Some? && call.key in t.inflight && t.inflight[call.key] == f
       case Following(f) => t.flights[f].leader != c
       case Returned(f, outcome) => t.flights[f].result == Some(outcome)
       case Cancelled(f) => t.flights[f].leader != c
  }

  lemma EnterKeeps(t: Table, c: nat, key: Key, f: nat)
    requires Inv(t) && Enabled(t, Enter(c, key, f))
    ensures Inv(Next(t, Enter(c, key, f)))
  {
    if key in t.inflight {
      JoinKeeps(t, c, key);
    } else {
      LeadKeeps(t, c, key, f);
    }
  }

  function Joined(t: Table, c: nat, key: Key): Table
    requires key in t.inflight
  {
    t.(calls := t.calls[c := Call(key, Following(t.inflight[key]))])
  }

  lemma JoinedAirborne(t: Table, c: nat, key: Key, k: Key)
    requires c !in t.calls && key in t.inflight && k in t.inflight && Airborne(t, k)
    ensures Airborne(Joined(t, c, key), k)
  {
  }

  lemma JoinedTracked(t: Table, c: nat, key: Key, c': nat)
    requires c !in t.calls && key in t.inflight && Airborne(t, key) && c' in t.calls && Tracked(t, c')
    ensures Tracked(Joined(t, c, key), c')
  {
  }

  lemma JoinKeeps(t: Table, c: nat, key: Key)
    requires Inv(t) && c !in t.calls && key in t.inflight
    ensures Inv(Joined(t, c, key))
  {
    var t' := Joined(t, c, key);
    assert Airborne(t, key);
    forall k | k in t'.inflight ensures Airborne(t', k) {
      JoinedAirborne(t, c, key, k);
    }
    forall c' | c' in t'.calls ensures Tracked(t', c') {
      if c' != c {
        JoinedTracked(t, c, key, c');
      }
    }
  }

  function Led(t: Table, c: nat, key: Key, f: nat): Table {
    Table(t.inflight[key := f], t.flights[f := Flight(key, c, None)], t.calls[c := Call(key, Leading(f))])
  }

  lemma LedAirborne(t: Table, c: nat, key: Key, f: nat, k: Key)
    requires c !in t.calls && f !in t.flights && k in t.inflight && Airborne(t, k) && k != key
    ensures Airborne(Led(t, c, key, f), k)
  {
  }

  lemma LedTracked(t: Table, c: nat, key: Key, f: nat, c': nat)
    requires c !in t.calls && f !in t.flights && key !in t.inflight && c' in t.calls && Tracked(t, c')
    ensures Tracked(Led(t, c, key, f), c')
  {
  }

  lemma LeadKeeps(t: Table, c: nat, key: Key, f: nat)
    requires Inv(t) && c !in t.calls && f !in t.flights && key !in t.inflight
    ensures Inv(Led(t, c, key, f))
  {
    var t' := Led(t, c, key, f);
    forall k | k in t'.inflight ensures Airborne(t', k) {
      if k != key {
        LedAirborne(t, c, key, f, k);
      }
    }
    forall c' | c' in t'.calls ensures Tracked(t', c') {
      if c' != c {
        LedTracked(t, c, key, f, c');
      }
    }
  }

  function Landing(t: Table, c: nat, f: nat, outcome: Outcome): Table
    requires c in t.calls && f in t.flights
  {
    t.(flights := t.flights[f := t.flights[f].(result := Some(outcome))],
       calls := t.calls[c := t.calls[c].(phase := Landed(f))])
  }

  lemma LandingAirborne(t: Table, c: nat, f: nat, outcome: Outcome, k: Key)
    requires c in t.calls && t.calls[c].phase == Leading(f) && Tracked(t, c)
    requires k in t.inflight && Airborne(t, k)
    ensures Airborne(Landing(t, c, f, outcome), k)
  {
  }

  lemma LandingTracked(t: Table, c: nat, f: nat, outcome: Outcome, c': nat)
    requires c in t.calls && t.calls[c].phase == Leading(f) && Tracked(t, c)
    requires c' in t.calls && Tracked(t, c')
    ensures Tracked(Landing(t, c, f, outcome), c')
  {
  }

  lemma LandKeeps(t: Table, c: nat, outcome: Outcome)
    requires Inv(t) && Enabled(t, Land(c, outcome))
    ensures Inv(Next(t, Land(c, outcome)))
  {
    assert Tracked(t, c);
    var f := t.calls[c].phase.flight;
    var t' := Landing(t, c, f, outcome);
    assert t' == Next(t, Land(c, outcome));
    forall k | k in t'.inflight ensures Airborne(t', k) {
      LandingAirborne(t, c, f, outcome, k);
    }
    forall c' | c' in t'.calls ensures Tracked(t', c') {
      LandingTracked(t, c, f, outcome, c');
    }
  }

  /** The leader takes its flight off the table and returns. */
  function Removed(t: Table, c: nat, f: nat, outcome: Outcome): Table
    requires c in t.calls
  {
    var key := t.calls[c].key;
    t.(inflight := if key in t.inflight && t.inflight[key] == f then t.inflight - {key} else t.inflight,
       calls := t.calls[c := t.calls[c].(phase := Returned(f, outcome))])
  }

  lemma RemovedAirborne(t: Table, c: nat, f: nat, outcome: Outcome, k: Key)
    requires c in t.calls && t.calls[c].phase == Landed(f) && Tracked(t, c)
    requires k in t.inflight && Airborne(t, k) && k != t.calls[c].key
    ensures k in Removed(t, c, f, outcome).inflight && Airborne(Removed(t, c, f, outcome), k)
  {
  }

  lemma RemovedTracked(t: Table, c: nat, f: nat, outcome: Outcome, c': nat)
    requires c in t.calls && t.calls[c].phase == Landed(f) && Tracked(t, c) && t.flights[f].result == Some(outcome)
    requires c' in t.calls && Tracked(t, c')
    ensures Tracked(Removed(t, c, f, outcome), c')
  {
  }

  lemma RemoveKeeps(t: Table, c: nat)
    requires Inv(t) && Enabled(t, Remove(c))
    ensures Inv(Next(t, Remove(c)))
  {
    assert Tracked(t, c);
    var f := t.calls[c].phase.flight;
    var outcome := t.flights[f].result.value;
    var t' := Removed(t, c, f, outcome);
    assert t' == Next(t, Remove(c));
    forall k | k in t'.inflight ensures Airborne(t', k) {
      RemovedAirborne(t, c, f, outcome, k);
    }
    forall c' | c' in t'.calls ensures Tracked(t', c') {
      RemovedTracked(t, c, f, outcome, c');
    }
  }

  function Settled(t: Table, c: nat, phase: Phase): Table
    requires c in t.calls
  {
    t.(calls := t.calls[c := t.calls[c].(phase := phase)])
  }

  lemma SettledAirborne(t: Table, c: nat, phase: Phase, k: Key)
    requires c in t.calls && t.calls[c].phase.Following? && k in t.inflight && Airborne(t, k)
    ensures Airborne(Settled(t, c, phase), k)
  {
  }

  lemma SettledTracked(t: Table, c: nat, phase: Phase, c': nat)
    requires c in t.calls && c' in t.calls && Tracked(t, c')
    requires c' == c ==> phase.flight == t.calls[c].phase.flight
    requires c' == c ==> phase.Cancelled? || phase.Returned?
    requires c' == c && phase.Returned? ==> phase.flight in t.flights && t.flights[phase.flight].result == Some(phase.outcome)
    requires c' == c && phase.Cancelled? ==> phase.flight in t.flights && t.flights[phase.flight].leader != c
    ensures Tracked(Settled(t, c, phase), c')
  {
  }

  /** A follower that stops waiting, either way, leaves everyone else alone. */
  lemma SettleKeeps(t: Table, c: nat, phase: Phase)
    requires Inv(t) && c in t.calls && t.calls[c].phase.Following?
    requires phase.flight == t.calls[c].phase.flight
    requires phase.Cancelled? || (phase.Returned? && phase.flight in t.flights && t.flights[phase.flight].result == Some(phase.outcome))
    ensures Inv(Settled(t, c, phase))
  {
    var t' := Settled(t, c, phase);
    assert Tracked(t, c);
    forall k | k in t'.inflight ensures Airborne(t', k) {
      SettledAirborne(t, c, phase, k);
    }
    forall c' | c' in t'.calls ensures Tracked(t', c') {
      SettledTracked(t, c, phase, c');
    }
  }

  ghost predicate EnabledRun(t: Table, steps: seq<Step>)
    decreases |steps|
  {
    steps == [] || (Enabled(t, steps[0]) && EnabledRun(Next(t, steps[0]), steps[1..]))
  }

  ghost function Run(t: Table, steps: seq<Step>): Table
    requires EnabledRun(t, steps)
    decreases |steps|
  {
    if steps == [] then t else Run(Next(t, steps[0]), steps[1..])
  }

  lemma {:induction false} RunKeeps(t: Table, steps: seq<Step>)
    requires Inv(t) && EnabledRun(t, steps)
    ensures Inv(Run(t, steps))
    decreases |steps|
  {
    if steps != [] {
      match steps[0] {
        case Enter(c, key, f) => EnterKeeps(t, c, key, f);
        case Land(c, outcome) => LandKeeps(t, c, outcome);
        case Remove(c) => RemoveKeeps(t, c);
        case Adopt(c) => SettleKeeps(t, c, Next(t, steps[0]).calls[c].phase);
        case Cancel(c) => SettleKeeps(t, c, Next(t, steps[0]).calls[c].phase);
      }
      RunKeeps(Next(t, steps[0]), steps[1..]);
    }
  }

  /** In any interleaving at most one attempt per (enrollment, message, agent) is running. */
  lemma OneAttemptAtATime(steps: seq<Step>, c: nat, c': nat)
    requires EnabledRun(IDLE, steps)
    requires var t := Run(IDLE, steps);
             && c in t.calls && c' in t.calls && t.calls[c].key == t.calls[c'].key
             && t.calls[c].phase.Leading? && t.calls[c'].phase.Leading?
    ensures c == c'
  {
    RunKeeps(IDLE, steps);
    var t := Run(IDLE, steps);
    assert Tracked(t, c) && Tracked(t, c');
  }

  /** Whoever returns uncancelled, leader or follower, returns the outcome of the flight it was on. */
  lemma ReturnsFlightOutcome(steps: seq<Step>, c: nat)
    requires EnabledRun(IDLE, steps)
    requires c in Run(IDLE, steps).calls && Run(IDLE, steps).calls[c].phase.Returned?
    ensures var t := Run(IDLE, steps);
            var f := t.calls[c].phase.flight;
            f in t.flights && t.flights[f].key == t.calls[c].key && t.flights[f].result == Some(t.calls[c].phase.outcome)
  {
    RunKeeps(IDLE, steps);
    assert Tracked(Run(IDLE, steps), c);
  }

  /** Once every call has returned or been cancelled the table is empty. */
  lemma TableEmptiesOut(steps: seq<Step>)
    requires EnabledRun(IDLE, steps)
    requires var t := Run(IDLE, steps);
             forall c :: c in t.calls ==> t.calls[c].phase.Returned? || t.calls[c].phase.Cancelled?
    ensures Run(IDLE, steps).inflight == map[]
  {
    RunKeeps(IDLE, steps);
    if Run(IDLE, steps).inflight != map[] {
      EntryNeedsCall(Run(IDLE, steps));
    }
  }

  lemma EntryNeedsCall(t: Table)
    requires Inv(t) && t.inflight != map[]
    ensures exists c :: c in t.calls && (t.calls[c].phase.Leading? || t.calls[c].phase.Landed?)
  {
    var k :| k in t.inflight;
    assert Airborne(t, k);
  }

  /** A call that finds no flight for its key leads one; every other call waits on that one. */
  lemma EnterLeadsExactlyWhenIdle(t: Table, c: nat, key: Key, f: nat)
    requires Inv(t) && Enabled(t, Enter(c, key, f))
    ensures Next(t, Enter(c, key, f)).calls[c].phase.Leading? <==>
            forall c' :: c' in t.calls && t.calls[c'].key == key ==> !t.calls[c'].phase.Leading? && !t.calls[c'].phase.Landed?
  {
    if key in t.inflight {
      assert Airborne(t, key);
      assert Tracked(t, t.flights[t.inflight[key]].leader);
    } else {
      forall c' | c' in t.calls && t.calls[c'].key == key ensures !t.calls[c'].phase.Leading? && !t.calls[c'].phase.Landed? {
        assert Tracked(t, c');
      }
    }
  }
}
