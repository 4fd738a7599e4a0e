/** What the first pin of a recording association has at the end: a walk to its
    ADC on which every widget that chooses its input has chosen the walk, in the
    tables after the parse and in the codec after the commit. */
module RecordedRoutes {
  import opened HdaGraph
  import opened Configuration
  import opened OutputTrace
  import opened OutputAssociation
  import opened InputTrace
  import opened AssociationTurns
  import opened MonitorTrace
  import opened TreeBuilder
  import opened RouteSurvival
  import opened ParsePipeline
  import opened InputSelections
  import Trails
  import Amps = Amplifiers
  import Commit = CodecCommit

  /** Hop m of p leads where widget p[m] has chosen, if it is a selector or has
      several inputs and is no mixer. */
  ghost predicate ChosenHop(ws: seq<Widget>, p: seq<int>, m: int)
  {
    0 < m < |p| && 0 <= p[m] < |ws| &&
    var w := ws[p[m]];
    w.kind == Selector || (w.kind != Mixer && |w.conns| > 1) ==>
      0 <= w.selconn < |w.conns| && w.conns[w.selconn] == p[m - 1]
  }

  ghost predicate ChosenWalk(ws: seq<Widget>, p: seq<int>)
  {
    forall m :: 0 < m < |p| ==> ChosenHop(ws, p, m)
  }

  /** The widgets of p choose in ws' as they do in ws. */
  ghost predicate KeepsChoices(ws: seq<Widget>, ws': seq<Widget>, p: seq<int>)
  {
    |ws'| == |ws| && forall n :: n in p && 0 <= n < |ws| ==> KeepsChoice(ws[n], ws'[n])
  }

  predicate KeepsChoice(w: Widget, w': Widget)
  {
    w'.kind == w.kind && w'.conns == w.conns && (0 <= w.selconn ==> w'.selconn == w.selconn)
  }

  lemma ChoicesKept(ws: seq<Widget>, ws': seq<Widget>, p: seq<int>)
    requires ChosenWalk(ws, p) && KeepsChoices(ws, ws', p)
    ensures ChosenWalk(ws', p)
  {
    forall m | 0 < m < |p| ensures ChosenHop(ws', p, m) {
      assert ChosenHop(ws, p, m);
      assert p[m] in p && KeepsChoice(ws[p[m]], ws'[p[m]]);
    }
  }

  lemma WalkCarries(ws: seq<Widget>, p: seq<int>, a: int, s: int)
    requires LiveWalk(ws, p, a, s)
    ensures forall n :: n in p ==> Carries(ws, n, a, s)
  {
    forall n | n in p ensures Carries(ws, n, a, s) {
      var k :| 0 <= k < |p| && p[k] == n;
      WalkAt(ws, p, a, s, k);
    }
  }

  // ----- From the turn to the tree -----

  lemma {:induction false} StagesAcyclic(as0: seq<Assoc>, stages: seq<Stage>, j: nat, k: nat)
    requires Turns(as0, stages, j) && k <= j && Acyclic(stages[0].ws)
    ensures Acyclic(stages[k].ws)
  {
    if k > 0 {
      StagesAcyclic(as0, stages, j, k - 1);
      assert TurnOf(as0, stages, k - 1);
      TakenStructure(stages[k - 1].ws, stages[k].ws, k - 1);
      SameStructureAcyclic(stages[k - 1].ws, stages[k].ws);
    }
  }

  lemma TakenStructure(ws: seq<Widget>, ws': seq<Widget>, a: int)
    requires Taken(ws, ws', a)
    ensures AllSameStructure(ws, ws')
  {
  }

  /** The turn of a recording association that stays enabled. */
  lemma TurnInput(as0: seq<Assoc>, stages: seq<Stage>, j: nat, a: nat)
    requires Turns(as0, stages, j) && a < j && TurnOf(as0, stages, a)
    requires as0[a].enable && as0[a].dir == In && stages[a + 1].assocs[a].enable
    ensures |stages[a].assocs| == |as0| && stages[a].assocs[a] == as0[a] && AssocOk(as0[a])
    ensures Unbound(stages[a].ws, a) && AllSameStructure(stages[a].ws, stages[a + 1].ws)
    ensures InputTraced(stages[a].ws, stages[a].assocs, a, true, stages[a + 1].ws, stages[a + 1].assocs)
  {
    TakenStructure(stages[a].ws, stages[a + 1].ws, a);
  }

  lemma FreshUnchosen(ws: seq<Widget>)
    requires AllFresh(ws)
    ensures forall n :: Live(ws, n) && ws[n].bindAssoc < 0 ==> ws[n].selconn == -1
  {
    forall n | Live(ws, n) && ws[n].bindAssoc < 0 ensures ws[n].selconn == -1 {
      assert ws[n] == Cleared(ws[n]);
    }
  }

  /** The walk as an input search leaves it. */
  lemma SearchWalk(ws: seq<Widget>, as0: seq<Assoc>, a: nat, ws': seq<Widget>, as': seq<Assoc>, k: nat)
    returns (p: seq<int>)
    requires a < |as0| && AssocOk(as0[a]) && Unbound(ws, a) && InputTraced(ws, as0, a, true, ws', as')
    requires Acyclic(ws) && forall n :: Live(ws, n) && ws[n].bindAssoc < 0 ==> ws[n].selconn == -1
    requires k < PINS && as0[a].pins[k] != 0 && forall i :: 0 <= i < k ==> as0[a].pins[i] == 0
    ensures |as'| == |as0| && AssocOk(as'[a]) && LiveWalk(ws', p, a, k)
    ensures p[0] == as0[a].pins[k] && p[|p| - 1] == as'[a].dacs[k]
    ensures forall m :: 0 < m < |p| ==> ChoosesHop(ws, ws', p, m)
  {
    p := FirstPinSelected(ws, as0, a, ws', as', k);
  }

  lemma ChosenAfter(ws: seq<Widget>, ws': seq<Widget>, p: seq<int>)
    requires AllSameStructure(ws, ws') && forall m :: 0 < m < |p| ==> ChoosesHop(ws, ws', p, m)
    ensures ChosenWalk(ws', p)
  {
    forall m | 0 < m < |p| ensures ChosenHop(ws', p, m) {
      assert ChoosesHop(ws, ws', p, m) && SameStructure(ws[p[m]], ws'[p[m]]);
    }
  }

  lemma {:induction false} LaterWalk(as0: seq<Assoc>, stages: seq<Stage>, j: nat, a: nat, m: nat, p: seq<int>, s: int)
    requires Turns(as0, stages, j) && a < m <= j
    requires LiveWalk(stages[a + 1].ws, p, a, s) && ChosenWalk(stages[a + 1].ws, p)
    ensures LiveWalk(stages[m].ws, p, a, s) && ChosenWalk(stages[m].ws, p)
  {
    if a + 1 < m {
      LaterWalk(as0, stages, j, a, m - 1, p, s);
      assert TurnOf(as0, stages, m - 1);
      var ws, ws' := stages[m - 1].ws, stages[m].ws;
      TakenWalk(ws, ws', m - 1, p, a, s);
      WalkCarries(ws, p, a, s);
      ChoicesKept(ws, ws', p);
    }
  }

  lemma TappedChoices(ws: seq<Widget>, ws': seq<Widget>, assocs: seq<Assoc>, p: seq<int>)
    requires Tapped(ws, ws', assocs)
    ensures KeepsChoices(ws, ws', p)
  {
    forall n | n in p && 0 <= n < |ws| ensures KeepsChoice(ws[n], ws'[n]) {
      assert TappedAt(ws[n], ws'[n]);
    }
  }

  lemma PrunedChoices(g: Config, g': Config, p: seq<int>)
    requires Pruned(g, g')
    ensures KeepsChoices(g.ws, g'.ws, p)
  {
    forall n | n in p && 0 <= n < |g.ws| ensures KeepsChoice(g.ws[n], g'.ws[n]) {
      assert PrunedWidget(g.ws[n], g'.ws[n]);
    }
  }

  // ----- To the end of the parse -----

  /** On an acyclic graph without user patches, the first pin of every recording
      association in use has a walk of the tree to its ADC that follows the
      selections to the end of the parse; it is still connected then unless a
      monitor feeds a mixer on it. */
  lemma FirstPinRecorded(startNode: nat, g: Parse, a: nat, k: nat) returns (p: seq<int>)
    requires Parsed(startNode, g) && BeepsHaveNoInputs(g.start.ws) && Unpatched(g.start.ws) && Acyclic(g.start.ws)
    requires a < |g.assocs| && g.assocs[a].enable && g.assocs[a].dir == In && AssocOk(g.assocs[a])
    requires k < PINS && g.assocs[a].pins[k] != 0 && forall i :: 0 <= i < k ==> g.assocs[a].pins[i] == 0
    ensures LiveWalk(g.tree.ws, p, a, k) && p[0] == g.assocs[a].pins[k] && p[|p| - 1] == g.assocs[a].dacs[k]
    ensures ChosenWalk(g.pruned.ws, p)
    ensures LiveWalk(g.pruned.ws, p, a, k) <==> Unmonitored(g.tree.ws, p)
  {
    p := StageWalk(startNode, g, a, k);
    var last := g.stages[|g.table|].ws;
    StageBeeps(startNode, g);
    PinWanted(startNode, g, a, k);
    StagePin(startNode, g, p[0]);
    TappedWalk(last, g.tree.ws, g.assocs, p, a, k);
    TappedChoices(last, g.tree.ws, g.assocs, p);
    ChoicesKept(last, g.tree.ws, p);
    PrunedChoices(g.tree, g.pruned, p);
    ChoicesKept(g.tree.ws, g.pruned.ws, p);
    RecordingComplete(startNode, g, a);
  }

  /** The walk in the state before the extra trace. */
  lemma StageWalk(startNode: nat, g: Parse, a: nat, k: nat) returns (p: seq<int>)
    requires Parsed(startNode, g) && Unpatched(g.start.ws) && Acyclic(g.start.ws)
    requires a < |g.assocs| && g.assocs[a].enable && g.assocs[a].dir == In && AssocOk(g.assocs[a])
    requires k < PINS && g.assocs[a].pins[k] != 0 && forall i :: 0 <= i < k ==> g.assocs[a].pins[i] == 0
    ensures |g.stages| == |g.table| + 1 && LiveWalk(g.stages[|g.table|].ws, p, a, k)
    ensures p[0] == g.assocs[a].pins[k] && p[|p| - 1] == g.assocs[a].dacs[k]
    ensures ChosenWalk(g.stages[|g.table|].ws, p)
  {
    TracedExactly(startNode, g, a);
    PreparedUnpatched(g.start, g.prepared);
    PreparedAcyclic(g.start, g.prepared);
    UnpatchedTurns(g.table, g.stages, |g.table|, a);
    StagesAcyclic(g.table, g.stages, |g.table|, a);
    assert TracedFrom(g.table[a], g.assocs[a]);
    TurnInput(g.table, g.stages, |g.table|, a);
    FreshUnchosen(g.stages[a].ws);
    p := SearchWalk(g.stages[a].ws, g.stages[a].assocs, a, g.stages[a + 1].ws, g.stages[a + 1].assocs, k);
    ChosenAfter(g.stages[a].ws, g.stages[a + 1].ws, p);
    LaterWalk(g.table, g.stages, |g.table|, a, |g.table|, p, k);
  }

  // ----- In the codec -----

  /** After the commit the codec has been told to select the hops of such a walk. */
  lemma SelectedInCodec(startNode: nat, ws: seq<Widget>, ws': seq<Widget>, log: seq<Amps.Verb>, p: seq<int>, m: nat)
    requires WidgetsOk(startNode, ws) && Commit.NodesCommitted(startNode, ws, ws', log)
    requires ChosenWalk(ws, p) && 0 < m < |p| && startNode <= p[m] < |ws|
    requires ws[p[m]].kind == Selector || (ws[p[m]].kind != Mixer && |ws[p[m]].conns| > 1)
    ensures var w, i := ws[p[m]], Amps.SelectedAt(log, p[m]);
            0 <= i < |w.conns| && w.conns[i] == p[m - 1]
  {
    assert ChosenHop(ws, p, m);
    assert Commit.NodeCommitted(ws[p[m]], ws'[p[m]], log, p[m]) && WidgetOk(ws[p[m]]);
  }
}
