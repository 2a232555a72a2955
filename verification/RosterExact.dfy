/**
 What a roster publish comes to, told by the agents it lists and the stored keys
 (`applyRoster` in src/do/host-hub.ts).
 */
module RosterExact {
  import opened Common
  import opened HubRoster

  /** The publish lists the pane, and the last agent it lists for it has the name. */
  ghost predicate Shows(agents: seq<RosterAgent>, pane: string, name: string) {
    exists i :: ShowsAt(agents, pane, name, i)
  }

  ghost predicate ShowsAt(agents: seq<RosterAgent>, pane: string, name: string, i: int) {
    && 0 <= i < |agents| && agents[i].pane == pane && agents[i].name == name
    && forall j :: i < j < |agents| ==> agents[j].pane != pane
  }

  /** The publish lists the name, last in the pane. */
  ghost predicate ListsAt(agents: seq<RosterAgent>, name: string, pane: string, i: int) {
    && 0 <= i < |agents| && agents[i].name == name && agents[i].pane == pane
    && forall j :: i < j < |agents| ==> agents[j].name != name
  }

  predicate Names(agents: seq<RosterAgent>, name: string) {
    exists i :: 0 <= i < |agents| && agents[i].name == name
  }

  lemma {:induction false} PaneNameExact(agents: seq<RosterAgent>, pane: string)
    ensures PaneName(agents, pane).Some? ==> Shows(agents, pane, PaneName(agents, pane).value)
    ensures PaneName(agents, pane).None? ==> forall i :: 0 <= i < |agents| ==> agents[i].pane != pane
    ensures PaneName(agents, pane).None? ==> forall name :: !Shows(agents, pane, name)
  {
    if agents != [] {
      var n := |agents| - 1;
      if agents[n].pane == pane {
        assert ShowsAt(agents, pane, agents[n].name, n);
      } else {
        PaneNameExact(agents[..n], pane);
        if PaneName(agents[..n], pane).Some? {
          var name := PaneName(agents[..n], pane).value;
          var i :| ShowsAt(agents[..n], pane, name, i);
          assert ShowsAt(agents, pane, name, i);
        }
      }
    }
  }

  lemma ShownOnce(agents: seq<RosterAgent>, pane: string, name: string, other: string)
    requires Shows(agents, pane, name) && Shows(agents, pane, other)
    ensures name == other
  {
    var i :| ShowsAt(agents, pane, name, i);
    var j :| ShowsAt(agents, pane, other, j);
  }

  lemma {:induction false} ListedExact(agents: seq<RosterAgent>)
    ensures forall n :: n in Listed(agents) <==> Names(agents, n)
    ensures forall n :: n in Listed(agents) ==> exists i :: ListsAt(agents, n, Listed(agents)[n], i)
  {
    if agents != [] {
      var k := |agents| - 1;
      ListedExact(agents[..k]);
      forall n | n in Listed(agents) ensures Names(agents, n) && exists i :: ListsAt(agents, n, Listed(agents)[n], i) {
        if n == agents[k].name {
          assert ListsAt(agents, n, agents[k].pane, k);
        } else {
          var i :| ListsAt(agents[..k], n, Listed(agents[..k])[n], i);
          assert ListsAt(agents, n, Listed(agents)[n], i);
        }
      }
      forall n | Names(agents, n) ensures n in Listed(agents) {
        var i :| 0 <= i < |agents| && agents[i].name == n;
        assert i < k ==> agents[..k][i].name == n;
      }
    }
  }

  /** A listed name moves exactly if the publish shows another one last in its pane, and it moves to that one. */
  lemma RenamesExact(r: Roster, agents: seq<RosterAgent>)
    ensures forall n :: n in RenamesOf(r, agents) <==> n in r.listed && exists name :: Shows(agents, r.listed[n], name) && name != n
    ensures forall n :: n in RenamesOf(r, agents) ==> Shows(agents, r.listed[n], RenamesOf(r, agents)[n])
  {
    forall n | n in r.listed
      ensures IsRenamed(r, agents, n) <==> exists name :: Shows(agents, r.listed[n], name) && name != n
      ensures IsRenamed(r, agents, n) ==> Shows(agents, r.listed[n], PaneName(agents, r.listed[n]).value)
    {
      PaneNameExact(agents, r.listed[n]);
      if name :| Shows(agents, r.listed[n], name) && name != n {
        ShownOnce(agents, r.listed[n], name, PaneName(agents, r.listed[n]).value);
      }
    }
  }

  /** Dropped: listed before, not listed now, and not followed to another name. */
  ghost predicate Drops(r: Roster, agents: seq<RosterAgent>, n: string) {
    n in r.listed && !Names(agents, n) && !exists name :: Shows(agents, r.listed[n], name) && name != n
  }

  /**
   A publish lists exactly its agents; each name it drops departs now; each name it lists
   has its grace spent; and any other departure is kept, except that a publish that drops
   some name forgets those a day old.
   */
  lemma PublishExact(r: Roster, agents: seq<RosterAgent>, now: int)
    ensures var r' := Publish(r, agents, now);
            && (forall n :: n in r'.listed <==> Names(agents, n))
            && (forall n :: n in r'.listed ==> exists i :: ListsAt(agents, n, r'.listed[n], i))
            && (forall n :: Drops(r, agents, n) ==> n in r'.gone && r'.gone[n] == now)
            && (forall n :: Names(agents, n) ==> n !in r'.gone)
            && (forall n :: !Drops(r, agents, n) && !Names(agents, n) ==>
                  (n in r'.gone <==> n in r.gone && ((exists d :: Drops(r, agents, d)) ==> now - r.gone[n] < 86_400_000))
                  && (n in r'.gone ==> r'.gone[n] == r.gone[n]))
  {
    ListedExact(agents);
    RenamesExact(r, agents);
    forall n ensures n in Dropped(r, agents) <==> Drops(r, agents, n) {
      assert n in Present(agents) <==> Names(agents, n) by {
        ListedArePresent(agents);
      }
      assert n in r.listed ==> (IsRenamed(r, agents, n) <==> n in RenamesOf(r, agents));
    }
    forall n ensures n in Present(agents) <==> Names(agents, n) {
      ListedArePresent(agents);
    }
  }
}
