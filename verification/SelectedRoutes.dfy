/** Which playback pins have a route by selected hops at the end of the parse,
    said of the state in which their association was searched. */
module SelectedRoutes {
  import opened HdaGraph
  import opened OutputTrace
  import opened OutputAssociation
  import opened RouteProperties
  import opened AssociationTurns
  import opened MonitorTrace
  import opened TreeBuilder
  import opened ParsePipeline

  /** The associations as the successful search of a turn saw them. */
  ghost function SearchedAssocs(ws: seq<Widget>, as0: seq<Assoc>, a: nat): (as1: seq<Assoc>)
    requires a < |as0| && AssocReady(as0[a])
    ensures |as1| == |as0| && AssocOk(as1[a]) && as1[a].hpredir == as0[a].hpredir < PINS
  {
    if Assignable(ws, as0, a, 0) then as0 else Faked(as0, a)
  }

  lemma {:induction false} AssignmentSane(ws: seq<Widget>, as0: seq<Assoc>, a: nat, s: nat, ws': seq<Widget>,
                                          as': seq<Assoc>)
    requires Ready(ws, as0, a, s) && as0[a].hpredir < PINS && LeastAssignment(ws, as0, a, s, ws', as')
    ensures |as'| == |as0| && AssocOk(as'[a]) && Exclusive(ws', as'[a], a)
    decreases PINS - s
  {
    var i := NextPin(as0[a].pins, s);
    if i == PINS {
      SaneLater(ws, as0[a], a, s, PINS);
    } else {
      SaneLater(ws, as0[a], a, s, i);
      var r :| Choice(ws, as0, a, i, r) && LeastBy(ws, as0, a, i, r, ws', as');
      ChoiceReady(ws, as0, a, i, r);
      AssignmentSane(Mark(ws, r, a, i), Noted(as0, a, i, Target(r)), a, i + 1, ws', as');
    }
  }

  /** The turn of an output association that stays enabled. */
  lemma TurnSelected(as0: seq<Assoc>, stages: seq<Stage>, j: nat, a: nat)
    requires Turns(as0, stages, j) && a < j && Unpatched(stages[a].ws)
    requires as0[a].enable && as0[a].dir == Out && TurnOf(as0, stages, a) && stages[a + 1].assocs[a].enable
    ensures AssocOk(stages[a + 1].assocs[a]) && Exclusive(stages[a + 1].ws, stages[a + 1].assocs[a], a)
    ensures AllSelected(stages[a + 1].ws, stages[a + 1].assocs[a], a, 0) <==>
            SelectionsLead(stages[a].ws, SearchedAssocs(stages[a].ws, stages[a].assocs, a), a, 0)
  {
    var ws, assocs, ws', assocs' := stages[a].ws, stages[a].assocs, stages[a + 1].ws, stages[a + 1].assocs;
    var as1 := SearchedAssocs(ws, assocs, a);
    UnboundReady(ws, as1, a);
    assert OutDecided(ws, assocs, a, true, ws', assocs');
    AssignmentSane(ws, as1, a, 0, ws', assocs');
    AllSelectedIff(ws, as1, a, 0, ws', assocs');
  }

  // ----- What comes after leaves the routes as they are -----

  lemma {:induction false} TakenSameRoute(ws: seq<Widget>, ws': seq<Widget>, b: int, r: Route, a: nat, j: int)
    requires Taken(ws, ws', b) && b != a
    ensures LiveRoute(ws', r, a, j, true) <==> LiveRoute(ws, r, a, j, true)
  {
    match r
    case Dac(_) =>
    case Via(_, _, rest) => TakenSameRoute(ws, ws', b, rest, a, j);
  }

  lemma TakenExclusive(ws: seq<Widget>, ws': seq<Widget>, b: int, asc: Assoc, a: nat)
    requires Taken(ws, ws', b) && b != a && Exclusive(ws, asc, a)
    ensures Exclusive(ws', asc, a)
  {
    forall n | Live(ws', n) && ws'[n].bindAssoc == a ensures Held(ws'[n], asc, PINS) {
      assert Live(ws, n) && ws'[n] == ws[n];
    }
  }

  lemma {:induction false} LaterTurns(as0: seq<Assoc>, stages: seq<Stage>, j: nat, a: nat, m: nat, asc: Assoc)
    requires Turns(as0, stages, j) && a < m <= j && Exclusive(stages[a + 1].ws, asc, a)
    ensures Exclusive(stages[m].ws, asc, a)
    ensures forall r, s :: LiveRoute(stages[m].ws, r, a, s, true) <==> LiveRoute(stages[a + 1].ws, r, a, s, true)
  {
    if a + 1 < m {
      LaterTurns(as0, stages, j, a, m - 1, asc);
      assert TurnOf(as0, stages, m - 1);
      TakenExclusive(stages[m - 1].ws, stages[m].ws, m - 1, asc, a);
      forall r, s ensures LiveRoute(stages[m].ws, r, a, s, true) <==> LiveRoute(stages[m - 1].ws, r, a, s, true) {
        TakenSameRoute(stages[m - 1].ws, stages[m].ws, m - 1, r, a, s);
      }
    }
  }

  lemma {:induction false} ExtraSameRoute(ws: seq<Widget>, ws': seq<Widget>, assocs: seq<Assoc>, asc: Assoc, r: Route,
                                          a: nat, s: int)
    requires Tapped(ws, ws', assocs) && BeepsHaveNoInputs(ws) && Exclusive(ws, asc, a)
    ensures LiveRoute(ws', r, a, s, true) <==> LiveRoute(ws, r, a, s, true)
  {
    if LiveRoute(ws, r, a, s, true) {
      TappedRoute(ws, ws', assocs, r, a, s, true);
    } else if LiveRoute(ws', r, a, s, true) {
      var n := Source(r);
      assert TappedAt(ws[n], ws'[n]) && Live(ws, n) && ws[n].bindAssoc == a;
      assert Held(ws[n], asc, PINS);
      if r.Via? {
        ExtraSameRoute(ws, ws', assocs, asc, r.rest, a, s);
      }
    }
  }

  lemma SameRoutesSelected(ws: seq<Widget>, ws': seq<Widget>, asc: Assoc, a: nat)
    requires AssocOk(asc)
    requires forall r, s :: 0 <= s < PINS && asc.pins[s] != 0 && Source(r) == asc.pins[s] ==>
               (LiveRoute(ws', r, a, s, true) <==> LiveRoute(ws, r, a, s, true))
    ensures AllSelected(ws', asc, a, 0) <==> AllSelected(ws, asc, a, 0)
  {
    forall s | 0 <= s < PINS && asc.pins[s] != 0
      ensures PinRouted(ws', asc, a, s, true) <==> PinRouted(ws, asc, a, s, true)
    {
      if r :| LiveRoute(ws, r, a, s, true) && Source(r) == asc.pins[s] && Target(r) == asc.dacs[s] {
        assert LiveRoute(ws', r, a, s, true);
      }
      if r :| LiveRoute(ws', r, a, s, true) && Source(r) == asc.pins[s] && Target(r) == asc.dacs[s] {
        assert LiveRoute(ws, r, a, s, true);
      }
    }
  }

  /** The tree has the routes of the association's turn. */
  lemma TreeSelected(startNode: nat, g: Parse, a: nat)
    requires Parsed(startNode, g) && BeepsHaveNoInputs(g.start.ws) && TracedInTurn(g, a)
    requires AssocOk(g.assocs[a]) && Exclusive(g.stages[a + 1].ws, g.assocs[a], a)
    ensures AllSelected(g.tree.ws, g.assocs[a], a, 0) <==> AllSelected(g.stages[a + 1].ws, g.assocs[a], a, 0)
  {
    var last := g.stages[|g.table|].ws;
    LaterTurns(g.table, g.stages, |g.table|, a, |g.table|, g.assocs[a]);
    StageBeeps(startNode, g);
    forall r, s ensures LiveRoute(g.tree.ws, r, a, s, true) <==> LiveRoute(last, r, a, s, true) {
      ExtraSameRoute(last, g.tree.ws, g.assocs, g.assocs[a], r, a, s);
    }
    SameRoutesSelected(g.stages[a + 1].ws, g.tree.ws, g.assocs[a], a);
  }

  /** Whatever the graph: without user patches all pins of a playback
      association have a route by selected hops to their DAC at the end of the
      parse exactly when the selections of the walks the search has chosen for
      them lead there. */
  lemma PlaybackSelectedIff(startNode: nat, g: Parse, a: nat)
    requires Parsed(startNode, g) && BeepsHaveNoInputs(g.start.ws) && Unpatched(g.start.ws)
    requires a < |g.assocs| && g.assocs[a].enable && g.assocs[a].dir == Out
    ensures TracedInTurn(g, a) && AssocOk(g.assocs[a])
    ensures AllSelected(g.pruned.ws, g.assocs[a], a, 0) <==>
            SelectionsLead(g.stages[a].ws, SearchedAssocs(g.stages[a].ws, g.stages[a].assocs, a), a, 0)
  {
    TracedExactly(startNode, g, a);
    PreparedUnpatched(g.start, g.prepared);
    UnpatchedTurns(g.table, g.stages, |g.table|, a);
    PlaybackComplete(startNode, g, a);
    TurnSelected(g.table, g.stages, |g.table|, a);
    TreeSelected(startNode, g, a);
    SameRoutesSelected(g.tree.ws, g.pruned.ws, g.assocs[a], a);
  }
}
