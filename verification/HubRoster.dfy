/**
 The roster a daemon publishes to its hub and the grace of departed names
 (`applyRoster` and `canReceive` in src/do/host-hub.ts): which names a message can
 be queued for, at any instant of any run of publishes.
 */
module HubRoster {
  import opened Common
  import HubInvariant
  import HubModel
  import HubRename

  datatype RosterAgent = RosterAgent(name: string, pane: string)

  /** `roster:name` holds the pane, `gone:name` when a publish last dropped the name. */
  datatype Roster = Roster(listed: map<string, string>, gone: map<string, int>)

  const NOBODY: Roster := Roster(map[], map[])

  function Present(agents: seq<RosterAgent>): set<string> {
    set a | a in agents :: a.name
  }

  /** Of agents published for one pane the last counts. */
  function PaneName(agents: seq<RosterAgent>, pane: string): Option<string> {
    if agents == [] then None
    else
      var last := agents[|agents| - 1];
      if last.pane == pane then Some(last.name) else PaneName(agents[..|agents| - 1], pane)
  }

  function Listed(agents: seq<RosterAgent>): map<string, string> {
    if agents == [] then map[]
    else
      var last := agents[|agents| - 1];
      Listed(agents[..|agents| - 1])[last.name := last.pane]
  }

  predicate IsRenamed(r: Roster, agents: seq<RosterAgent>, name: string) {
    && name in r.listed
    && PaneName(agents, r.listed[name]).Some? && PaneName(agents, r.listed[name]).value != name
  }

  function RenamesOf(r: Roster, agents: seq<RosterAgent>): HubRename.Renames {
    map n | n in r.listed && IsRenamed(r, agents, n) :: PaneName(agents, r.listed[n]).value
  }

  /** Names this publish lets go: neither listed again nor followed to a new name. */
  function Dropped(r: Roster, agents: seq<RosterAgent>): set<string> {
    set n | n in r.listed && n !in Present(agents) && !IsRenamed(r, agents, n)
  }

  function Swept(gone: map<string, int>, now: int): map<string, int> {
    map n | n in gone && now - gone[n] < HubModel.DELIVERY_TTL_MS :: gone[n]
  }

  function Publish(r: Roster, agents: seq<RosterAgent>, now: int): Roster {
    var dropped := Dropped(r, agents);
    var gone := (r.gone + map n | n in dropped :: now) - Present(agents);
    Roster(Listed(agents), if dropped != {} then Swept(gone, now) else gone)
  }

  /** Listed, or within the grace of its departure, or declared in the directory. */
  predicate Routable(r: Roster, name: string, declared: bool, now: int) {
    || name in r.listed
    || (name in r.gone && now - r.gone[name] < HubModel.DELIVERY_TTL_MS)
    || declared
  }

  lemma {:induction false} ListedArePresent(agents: seq<RosterAgent>)
    ensures Listed(agents).Keys == Present(agents)
  {
    if agents != [] {
      var n := |agents| - 1;
      ListedArePresent(agents[..n]);
      assert agents == agents[..n] + [agents[n]];
      assert Present(agents) == Present(agents[..n]) + {agents[n].name};
    }
  }

  /** No pane is renamed to the name it has: what the queue's rename loop relies on. */
  lemma RosterRenamesReal(r: Roster, agents: seq<RosterAgent>)
    ensures HubRename.RealRenames(RenamesOf(r, agents))
  {
  }

  /** A publish keeps the queue's invariant exactly when the renames it makes collide nowhere in the listing. */
  lemma PublishKeepsExact(s: HubModel.HubState, r: Roster, agents: seq<RosterAgent>, listing: seq<HubModel.QueueKey>, slug: string)
    requires HubInvariant.Inv(s) && HubRename.IsListing(s, listing)
    ensures HubInvariant.Inv(HubRename.Rename(s, listing, RenamesOf(r, agents), slug)) <==>
            HubRename.CollisionFree(s, listing, RenamesOf(r, agents))
  {
    RosterRenamesReal(r, agents);
    HubRename.RenameExact(s, listing, RenamesOf(r, agents), slug);
  }

  // ---------------------------------------------------------------- runs of publishes

  datatype Published = Published(agents: seq<RosterAgent>, now: int)

  ghost predicate Later(clock: int, run: seq<Published>)
    decreases |run|
  {
    run == [] || (clock <= run[0].now && Later(run[0].now, run[1..]))
  }

  ghost function After(r: Roster, run: seq<Published>): Roster
    decreases |run|
  {
    if run == [] then r else After(Publish(r, run[0].agents, run[0].now), run[1..])
  }

  ghost function LastPublish(clock: int, run: seq<Published>): int {
    if run == [] then clock else run[|run| - 1].now
  }

  ghost predicate NeverListed(run: seq<Published>, name: string) {
    forall i :: 0 <= i < |run| ==> name !in Present(run[i].agents)
  }

  /** A name is never both listed and departed. */
  ghost predicate Apart(r: Roster) {
    forall n :: n in r.listed ==> n !in r.gone
  }

  lemma PublishApart(r: Roster, agents: seq<RosterAgent>, now: int)
    ensures Apart(Publish(r, agents, now))
  {
    ListedArePresent(agents);
  }

  /** While a name stays unlisted its departure is remembered for exactly the grace. */
  lemma {:induction false} GraceLasts(r: Roster, clock: int, run: seq<Published>, name: string, t: int, now: int)
    requires Later(clock, run) && NeverListed(run, name) && LastPublish(clock, run) <= now
    requires name !in r.listed
    requires if name in r.gone then r.gone[name] == t else clock - t >= HubModel.DELIVERY_TTL_MS
    ensures Routable(After(r, run), name, false, now) <==> now - t < HubModel.DELIVERY_TTL_MS
    decreases |run|
  {
    if run != [] {
      var p := run[0];
      assert name !in Present(p.agents);
      ListedArePresent(p.agents);
      assert NeverListed(run[1..], name);
      GraceLasts(Publish(r, p.agents, p.now), p.now, run[1..], name, t, now);
    } else {
      assert LastPublish(clock, run) == clock;
    }
  }

  /** A name that was followed to another one leaves no grace behind. */
  lemma {:induction false} NoGrace(r: Roster, run: seq<Published>, name: string, now: int)
    requires NeverListed(run, name) && name !in r.listed && name !in r.gone
    ensures !Routable(After(r, run), name, false, now)
    decreases |run|
  {
    if run != [] {
      assert name !in Present(run[0].agents);
      ListedArePresent(run[0].agents);
      assert NeverListed(run[1..], name);
      NoGrace(Publish(r, run[0].agents, run[0].now), run[1..], name, now);
    }
  }

  /**
   The address of a name that a publish at `t` no longer lists: until it is listed
   again, and unless it is declared, it is routable exactly while less than the
   queue's own time to live has passed, and not at all if the publish renamed it.
   */
  lemma AddressOutlivesDeparture(r: Roster, agents: seq<RosterAgent>, t: int, run: seq<Published>, name: string, now: int)
    requires Apart(r) && name in r.listed && name !in Present(agents)
    requires Later(t, run) && NeverListed(run, name) && LastPublish(t, run) <= now
    ensures Routable(After(Publish(r, agents, t), run), name, false, now) <==>
            !IsRenamed(r, agents, name) && now - t < HubModel.DELIVERY_TTL_MS
  {
    var r' := Publish(r, agents, t);
    ListedArePresent(agents);
    if IsRenamed(r, agents, name) {
      NoGrace(r', run, name, now);
    } else {
      assert name in Dropped(r, agents);
      GraceLasts(r', t, run, name, t, now);
    }
  }

  // ---------------------------------------------------------------- the loop over the old roster

  ghost function RenamesAmong(r: Roster, agents: seq<RosterAgent>, done: set<string>): HubRename.Renames {
    map n | n in r.listed && n in done && IsRenamed(r, agents, n) :: PaneName(agents, r.listed[n]).value
  }

  ghost function GoneAfter(r: Roster, agents: seq<RosterAgent>, done: set<string>, now: int): map<string, int> {
    r.gone + map n | n in Dropped(r, agents) && n in done :: now
  }

  lemma RenamesStep(r: Roster, agents: seq<RosterAgent>, done: set<string>, name: string)
    requires name in r.listed && name !in done
    ensures name !in RenamesAmong(r, agents, done)
    ensures RenamesAmong(r, agents, done + {name}) ==
            if IsRenamed(r, agents, name)
            then RenamesAmong(r, agents, done)[name := PaneName(agents, r.listed[name]).value]
            else RenamesAmong(r, agents, done)
  {
  }

  lemma GoneStep(r: Roster, agents: seq<RosterAgent>, done: set<string>, name: string, now: int)
    ensures GoneAfter(r, agents, done + {name}, now) ==
            if name in Dropped(r, agents) then GoneAfter(r, agents, done, now)[name := now] else GoneAfter(r, agents, done, now)
  {
  }

  lemma DroppedStep(dropped: set<string>, done: set<string>, name: string)
    requires name !in done
    ensures |dropped * (done + {name})| == |dropped * done| + if name in dropped then 1 else 0
  {
    assert dropped * (done + {name}) == if name in dropped then dropped * done + {name} else dropped * done;
  }

  datatype Clearing = Clearing(listed: map<string, string>, gone: map<string, int>, renames: HubRename.Renames, departures: nat)

  function ClearOne(c: Clearing, agents: seq<RosterAgent>, name: string, pane: string, now: int): Clearing {
    var current := PaneName(agents, pane);
    var renames := if current.Some? && current.value != name then c.renames[name := current.value] else c.renames;
    var departed := name !in Present(agents) && name !in renames;
    Clearing(c.listed - {name},
             if departed then c.gone[name := now] else c.gone,
             renames,
             if departed then c.departures + 1 else c.departures)
  }

  /** The loop of `applyRoster` over the names of the old roster. */
  function Clear(r: Roster, agents: seq<RosterAgent>, names: seq<string>, now: int): Clearing
    requires forall n :: n in names ==> n in r.listed
  {
    if names == [] then Clearing(r.listed, r.gone, map[], 0)
    else
      var name := names[|names| - 1];
      ClearOne(Clear(r, agents, names[..|names| - 1], now), agents, name, r.listed[name], now)
  }

  function Visited(names: seq<string>): set<string> {
    set n | n in names
  }

  /** What the loop has done once it has visited a set of names, in whatever order. */
  ghost function Cleared(r: Roster, agents: seq<RosterAgent>, done: set<string>, now: int): Clearing {
    Clearing(r.listed - done, GoneAfter(r, agents, done, now), RenamesAmong(r, agents, done),
             |Dropped(r, agents) * done|)
  }

  lemma ClearedStep(r: Roster, agents: seq<RosterAgent>, done: set<string>, name: string, now: int)
    requires name in r.listed && name !in done
    ensures ClearOne(Cleared(r, agents, done, now), agents, name, r.listed[name], now) == Cleared(r, agents, done + {name}, now)
  {
    RenamesStep(r, agents, done, name);
    GoneStep(r, agents, done, name, now);
    DroppedStep(Dropped(r, agents), done, name);
    assert (r.listed - done) - {name} == r.listed - (done + {name});
  }

  lemma {:induction false} ClearExact(r: Roster, agents: seq<RosterAgent>, names: seq<string>, now: int)
    requires forall n :: n in names ==> n in r.listed
    requires forall i, j :: 0 <= i < j < |names| ==> names[i] != names[j]
    ensures Clear(r, agents, names, now) == Cleared(r, agents, Visited(names), now)
  {
    if names == [] {
      assert Visited(names) == {};
      assert Dropped(r, agents) * Visited(names) == {};
    } else {
      var n := |names| - 1;
      ClearExact(r, agents, names[..n], now);
      VisitedSnoc(names);
      assert names[n] in names;
      ClearedStep(r, agents, Visited(names[..n]), names[n], now);
    }
  }

  lemma VisitedSnoc(names: seq<string>)
    requires names != [] && forall i, j :: 0 <= i < j < |names| ==> names[i] != names[j]
    ensures var n := |names| - 1; Visited(names) == Visited(names[..n]) + {names[n]} && names[n] !in Visited(names[..n])
  {
    assert forall k :: k in names <==> k in names[..|names| - 1] || k == names[|names| - 1];
  }

  lemma AllGone(r: Roster, agents: seq<RosterAgent>, now: int)
    ensures GoneAfter(r, agents, r.listed.Keys, now) == r.gone + map n | n in Dropped(r, agents) :: now
  {
  }

  lemma AllRenames(r: Roster, agents: seq<RosterAgent>)
    ensures RenamesAmong(r, agents, r.listed.Keys) == RenamesOf(r, agents)
  {
  }

  /** Once every name is visited the loop has computed what a publish is. */
  lemma ClearedAll(r: Roster, agents: seq<RosterAgent>, now: int)
    ensures var c := Cleared(r, agents, r.listed.Keys, now);
            && c.listed == map[]
            && c.gone == r.gone + (map n | n in Dropped(r, agents) :: now)
            && c.renames == RenamesOf(r, agents)
            && (c.departures > 0 <==> Dropped(r, agents) != {})
  {
    AllGone(r, agents, now);
    AllRenames(r, agents);
    assert r.listed - r.listed.Keys == map[];
    assert Dropped(r, agents) * r.listed.Keys == Dropped(r, agents);
  }
}
