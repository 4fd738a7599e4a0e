/** From the parsed widgets to the pruned tree: the passes of audioFunctionGroup
    parsing in the order of tranc/Parser.cpp:233-252, and what their
    composition guarantees the rest of the driver. */
module ParsePipeline {
  import opened HdaGraph
  import opened Configuration
  import opened OutputTrace
  import opened OutputAssociation
  import opened InputTrace
  import opened AssociationTurns
  import opened MonitorTrace
  import opened TreeBuilder
  import opened PruningPasses
  import opened RouteSurvival
  import Parser = AssociationParser
  import Facts = AssociationFacts
  import Selection = SelectionPasses
  import opened Separation
  import Useless = UselessPass

  // ----- Pruning the traced tree -----

  /** The states after the passes that follow audioBuildTree, but the last. */
  datatype Passes = Passes(associated: Config, selected: Config, useful: Config, crossed: Config)

  /** How the first three passes lead from the tree t on. */
  ghost predicate UsefulLeft(startNode: nat, assocs: seq<Assoc>, t: Config, ps: Passes)
  {
    && Selection.Bindings(t.ws, assocs)
    && Pruned(t, ps.associated) && PinsDone(Associated(t), ps.associated, t.cs, assocs, |t.ws|)
    && Pruned(ps.associated, ps.selected) && ps.selected.cs == ps.associated.cs
    && (forall n :: 0 <= n < |t.ws| ==> Selection.SelectedIn(ps.associated.ws[n], ps.selected.ws[n], assocs))
    && Pruned(ps.selected, ps.useful) && Stable(ps.useful) && Greatest(ps.selected, ps.useful)
    && ConfigOk(startNode, ps.useful) && Selection.Bindings(ps.useful.ws, assocs)
  }

  /** How all five lead to z. */
  ghost predicate Trimmed(startNode: nat, assocs: seq<Assoc>, t: Config, ps: Passes, z: Config)
  {
    && UsefulLeft(startNode, assocs, t, ps)
    && Pruned(ps.useful, ps.crossed) && Selection.Crossed(startNode, ps.useful, ps.crossed, assocs)
    && Pruned(ps.crossed, z) && Stable(z) && Greatest(ps.crossed, z)
  }

  predicate WantedPin(ws: seq<Widget>, n: int)
  {
    0 <= n < |ws| && ws[n].kind == PinComplex && !UselessPin(ws[n])
  }

  /** Exactly the routes of the tree by selected hops are still there; no other
      is, if every selecting widget of association a has made its choice. */
  ghost predicate RouteKeptExactly(t: Config, z: Config, r: Route, a: int, s: int)
  {
    && (LiveRoute(z.ws, r, a, s, true) <==> LiveRoute(t.ws, r, a, s, true))
    && (SelectionsMade(t.ws, a) ==> (LiveRoute(z.ws, r, a, s, false) <==> LiveRoute(t.ws, r, a, s, true)))
  }

  /** The pin belongs to a device and an association, association a is in the
      table and of direction dir. */
  predicate Concerned(t: Config, assocs: seq<Assoc>, pin: int, a: int, dir: Dir)
  {
    0 <= a < |assocs| && assocs[a].dir == dir && WantedPin(t.ws, pin)
  }

  /** The playback routes are those of the tree by selected hops, a recording
      walk is there exactly when no monitor feeds a mixer on it, and every
      widget left is bound. */
  ghost predicate TreeKept(t: Config, z: Config, assocs: seq<Assoc>)
  {
    && (forall r, a, s :: Concerned(t, assocs, Source(r), a, Out) ==> RouteKeptExactly(t, z, r, a, s))
    && (forall p, a, s :: LiveWalk(t.ws, p, a, s) && Concerned(t, assocs, p[0], a, In) ==>
          (LiveWalk(z.ws, p, a, s) <==> Unmonitored(t.ws, p)))
    && (forall n :: Live(z.ws, n) ==> z.ws[n].bindAssoc != -1)
  }

  lemma PrunedWanted(g: Config, g': Config, n: int)
    requires Pruned(g, g') && WantedPin(g.ws, n)
    ensures WantedPin(g'.ws, n)
  {
    assert PrunedWidget(g.ws[n], g'.ws[n]);
  }

  /** A selection pass keeps the selections of a made. */
  lemma SelectionsStay(g: Config, g': Config, a: int)
    requires Pruned(g, g') && SelectionsMade(g.ws, a)
    ensures SelectionsMade(g'.ws, a)
  {
    forall n | Live(g'.ws, n) && g'.ws[n].bindAssoc == a && Selecting(g'.ws[n])
      ensures 0 <= g'.ws[n].selconn < |g'.ws[n].conns|
    {
      assert PrunedWidget(g.ws[n], g'.ws[n]) && Live(g.ws, n);
    }
  }

  lemma RouteSurvives(startNode: nat, assocs: seq<Assoc>, t: Config, ps: Passes, z: Config, r: Route, a: nat, s: int,
                      sel: bool)
    requires Trimmed(startNode, assocs, t, ps, z) && Concerned(t, assocs, Source(r), a, Out)
    requires sel || SelectionsMade(t.ws, a)
    ensures LiveRoute(z.ws, r, a, s, sel) <==> LiveRoute(t.ws, r, a, s, true)
  {
    var u, v, x, y := ps.associated, ps.selected, ps.useful, ps.crossed;
    RouteThroughUnassociated(t, u, assocs, r, a, s, true);
    PrunedWanted(t, u, Source(r));
    if SelectionsMade(t.ws, a) {
      SelectionsStay(t, u, a);
    }
    RouteThroughNonSelected(u, v, assocs, r, a, s, sel);
    PrunedWanted(u, v, Source(r));
    RouteThroughUseless(v, x, r, a, s, sel);
    PrunedWanted(v, x, Source(r));
    RouteThroughCross(startNode, x, y, assocs, r, a, s, sel);
    PrunedWanted(x, y, Source(r));
    RouteThroughUseless(y, z, r, a, s, sel);
  }

  lemma WalkSurvives(startNode: nat, assocs: seq<Assoc>, t: Config, ps: Passes, z: Config, p: seq<int>, a: nat, s: int)
    requires Trimmed(startNode, assocs, t, ps, z)
    requires LiveWalk(t.ws, p, a, s) && Concerned(t, assocs, p[0], a, In)
    ensures LiveWalk(z.ws, p, a, s) <==> Unmonitored(t.ws, p)
  {
    var u, v, x, y := ps.associated, ps.selected, ps.useful, ps.crossed;
    WalkThroughUnassociated(t, u, assocs, p, a, s);
    PrunedWanted(t, u, p[0]);
    PrunedUnmonitored(t, u, p);
    WalkThroughNonSelected(u, v, assocs, p, a, s);
    PrunedWanted(u, v, p[0]);
    PrunedUnmonitored(u, v, p);
    WalkThroughUseless(v, x, p, a, s);
    PrunedWanted(v, x, p[0]);
    PrunedUnmonitored(v, x, p);
    WalkThroughCross(startNode, x, y, assocs, p, a, s);
    if LiveWalk(y.ws, p, a, s) {
      PrunedWanted(x, y, p[0]);
      WalkThroughUseless(y, z, p, a, s);
    } else if LiveWalk(z.ws, p, a, s) {
      PrunedWalk(y, z, p, a, s);
    }
  }

  lemma TrimmedKeeps(startNode: nat, assocs: seq<Assoc>, t: Config, ps: Passes, z: Config)
    requires Trimmed(startNode, assocs, t, ps, z)
    ensures Pruned(t, z) && TreeKept(t, z, assocs)
  {
    forall r, a, s | Concerned(t, assocs, Source(r), a, Out) ensures RouteKeptExactly(t, z, r, a, s) {
      RouteSurvives(startNode, assocs, t, ps, z, r, a, s, true);
      if SelectionsMade(t.ws, a) {
        RouteSurvives(startNode, assocs, t, ps, z, r, a, s, false);
      }
    }
    forall p, a, s | LiveWalk(t.ws, p, a, s) && Concerned(t, assocs, p[0], a, In)
      ensures LiveWalk(z.ws, p, a, s) <==> Unmonitored(t.ws, p)
    {
      WalkSurvives(startNode, assocs, t, ps, z, p, a, s);
    }
    var u, v, x, y := ps.associated, ps.selected, ps.useful, ps.crossed;
    PrunedTwice(t, u, v);
    PrunedTwice(t, v, x);
    PrunedTwice(t, x, y);
    PrunedTwice(t, y, z);
    PrunedTwice(u, v, x);
    PrunedTwice(u, x, y);
    PrunedTwice(u, y, z);
    forall n | Live(z.ws, n) ensures z.ws[n].bindAssoc != -1 {
      assert PrunedWidget(u.ws[n], z.ws[n]) && PrunedWidget(t.ws[n], u.ws[n]);
      assert u.ws[n].enable == Associated(t).ws[n].enable;
    }
  }

  /** The connections left run one way, and playback takes what it selected. */
  lemma TrimmedOneWay(startNode: nat, assocs: seq<Assoc>, t: Config, ps: Passes, z: Config)
    requires ConfigOk(startNode, t) && Trimmed(startNode, assocs, t, ps, z)
    ensures OneWay(z.ws, assocs)
  {
    PrunedTwice(ps.selected, ps.useful, ps.crossed);
    PrunedTwice(ps.selected, ps.crossed, z);
    StillOneWay(startNode, t, ps.associated, ps.selected, z, assocs);
  }

  lemma BindingsStay(t: Config, g: Config, assocs: seq<Assoc>)
    requires Selection.Bindings(t.ws, assocs) && Pruned(t, g)
    ensures Selection.Bindings(g.ws, assocs)
  {
    forall n | 0 <= n < |t.ws| ensures g.ws[n].bindAssoc < |assocs| {
      assert PrunedWidget(t.ws[n], g.ws[n]);
    }
  }

  /** The five passes that follow audioBuildTree. */
  method PruneTree(fg: FunctionGroup) returns (ghost ps: Passes)
    requires ConfigOk(fg.startNode, ConfigOf(fg)) && Selection.Bindings(fg.widgets[..], fg.assocs[..])
    requires forall n :: 0 <= n < fg.widgets.Length ==> -2 <= fg.widgets[n].bindAssoc
    modifies fg.widgets, fg.controls
    ensures ConfigOk(fg.startNode, ConfigOf(fg)) && Pruned(old(ConfigOf(fg)), ConfigOf(fg))
    ensures Trimmed(fg.startNode, fg.assocs[..], old(ConfigOf(fg)), ps, ConfigOf(fg))
    ensures TreeKept(old(ConfigOf(fg)), ConfigOf(fg), fg.assocs[..])
    ensures Selection.Bindings(fg.widgets[..], fg.assocs[..]) && NothingCrosses(ConfigOf(fg), fg.assocs[..])
  {
    ghost var assocs, t := fg.assocs[..], ConfigOf(fg);
    ps := LeaveUseful(fg);
    Selection.AudioDisableCrossAssociations(fg);
    ps := ps.(crossed := ConfigOf(fg));
    BindingsStay(ps.useful, ps.crossed, assocs);
    CrossedSeparates(fg.startNode, ps.useful, ps.crossed, assocs);
    Useless.AudioDisableUseless(fg);
    BindingsStay(ps.crossed, ConfigOf(fg), assocs);
    StillSeparate(fg.startNode, ps.crossed, ConfigOf(fg), assocs);
    TrimmedKeeps(fg.startNode, assocs, t, ps, ConfigOf(fg));
  }

  /** The first three of them. */
  method LeaveUseful(fg: FunctionGroup) returns (ghost ps: Passes)
    requires ConfigOk(fg.startNode, ConfigOf(fg)) && Selection.Bindings(fg.widgets[..], fg.assocs[..])
    requires forall n :: 0 <= n < fg.widgets.Length ==> -2 <= fg.widgets[n].bindAssoc
    modifies fg.widgets, fg.controls
    ensures ps.useful == ConfigOf(fg) && UsefulLeft(fg.startNode, fg.assocs[..], old(ConfigOf(fg)), ps)
  {
    ghost var assocs, t := fg.assocs[..], ConfigOf(fg);
    assert forall n :: 0 <= n < |t.ws| ==> t.ws[n].bindAssoc < |assocs|;
    AudioDisableUnassociated(fg);
    ghost var u := ConfigOf(fg);
    BindingsStay(t, u, assocs);
    Selection.AudioDisableNonSelected(fg);
    ghost var v := ConfigOf(fg);
    Useless.AudioDisableUseless(fg);
    BindingsStay(u, v, assocs);
    BindingsStay(v, ConfigOf(fg), assocs);
    ps := Passes(u, v, ConfigOf(fg), ConfigOf(fg));
  }

  // ----- The whole parse -----

  /** Nothing has been traced yet. */
  predicate Untraced(ws: seq<Widget>)
  {
    forall n :: 0 <= n < |ws| ==> ws[n].bindAssoc == -1 && ws[n].bindSeqMask == {}
  }

  /** adjustPinAssociationsForSwitching rewrites association and sequence, the
      low eight bits of a configuration, and nothing else. */
  predicate Adjusts(ws: seq<Widget>, adjusted: seq<nat>)
  {
    |adjusted| == |ws| && forall n :: 0 <= n < |ws| ==> adjusted[n] / 0x100 == ws[n].config / 0x100
  }

  lemma AdjustedConnectivity(config: nat, adjusted: nat)
    requires adjusted / 0x100 == config / 0x100
    ensures Connectivity(adjusted) == Connectivity(config)
  {
    assert config / 0x4000_0000 == config / 0x100 / 0x40_0000;
    assert adjusted / 0x4000_0000 == adjusted / 0x100 / 0x40_0000;
  }

  /** p with the configurations of g0. */
  function Unadjusted(g0: Config, p: Config): Config
    requires |p.ws| == |g0.ws|
  {
    p.(ws := seq(|p.ws|, n requires 0 <= n < |p.ws| => p.ws[n].(config := g0.ws[n].config)))
  }

  /** p is g0 after the passes before the association parse: the widgets that
      are not audio are off, of the rest exactly the greatest stable part is
      on, and configurations differ in their low eight bits. */
  ghost predicate Prepared(g0: Config, p: Config)
  {
    && |p.ws| == |g0.ws|
    && Pruned(AudioOnly(g0), Unadjusted(g0, p))
    && Stable(Unadjusted(g0, p)) && Greatest(AudioOnly(g0), Unadjusted(g0, p))
    && forall n :: 0 <= n < |g0.ws| ==> p.ws[n].config / 0x100 == g0.ws[n].config / 0x100
  }

  lemma AdjustedPrepared(g0: Config, g: Config, p: Config, adjusted: seq<nat>)
    requires Pruned(AudioOnly(g0), g) && Stable(g) && Greatest(AudioOnly(g0), g) && Adjusts(g0.ws, adjusted)
    requires p.cs == g.cs && |p.ws| == |g.ws| && forall n :: 0 <= n < |g.ws| ==>
              p.ws[n] == g.ws[n].(config := adjusted[n])
    ensures Prepared(g0, p)
  {
    forall n | 0 <= n < |g.ws| ensures Unadjusted(g0, p).ws[n] == g.ws[n] {
      assert PrunedWidget(AudioOnly(g0).ws[n], g.ws[n]);
    }
    assert Unadjusted(g0, p).ws == g.ws;
  }

  /** Nothing has been enabled, and what has been disabled is silent. */
  lemma PreparedPruned(g0: Config, p: Config)
    requires Prepared(g0, p)
    ensures |p.ws| == |g0.ws| && |p.cs| == |g0.cs|
    ensures forall n :: 0 <= n < |g0.ws| ==> PrunedWidget(g0.ws[n].(config := p.ws[n].config), p.ws[n])
    ensures forall c :: 0 <= c < |g0.cs| ==> p.cs[c] == g0.cs[c] || p.cs[c] == Silenced(g0.cs[c])
    ensures forall n :: Live(p.ws, n) && p.ws[n].kind == PinComplex ==>
              Connectivity(p.ws[n].config) != CONNECTIVITY_NONE
  {
    var g := Unadjusted(g0, p);
    forall n | 0 <= n < |g0.ws|
      ensures PrunedWidget(g0.ws[n].(config := p.ws[n].config), p.ws[n])
      ensures Live(p.ws, n) && p.ws[n].kind == PinComplex ==> Connectivity(p.ws[n].config) != CONNECTIVITY_NONE
    {
      assert PrunedWidget(AudioOnly(g0).ws[n], g.ws[n]);
      AdjustedConnectivity(g0.ws[n].config, p.ws[n].config);
      if Live(p.ws, n) {
        assert Live(g.ws, n) && !UselessPin(g.ws[n]);
      }
    }
  }

  method AdjustConfigs(fg: FunctionGroup, adjusted: seq<nat>)
    requires ConfigOk(fg.startNode, ConfigOf(fg)) && |adjusted| == fg.widgets.Length
    modifies fg.widgets
    ensures ConfigOk(fg.startNode, ConfigOf(fg))
    ensures forall n :: 0 <= n < fg.widgets.Length ==> fg.widgets[n] == old(fg.widgets[n]).(config := adjusted[n])
  {
    ghost var ws := fg.widgets[..];
    var i := 0;
    while i < fg.widgets.Length
      invariant 0 <= i <= fg.widgets.Length
      invariant forall n :: 0 <= n < i ==> fg.widgets[n] == ws[n].(config := adjusted[n])
      invariant forall n :: i <= n < fg.widgets.Length ==> fg.widgets[n] == ws[n]
    {
      fg.widgets[i] := fg.widgets[i].(config := adjusted[i]);
      i := i + 1;
    }
    SameConnections(fg.startNode, Config(ws, fg.controls[..]), ConfigOf(fg));
  }

  lemma SameConnections(startNode: nat, g: Config, g': Config)
    requires ConfigOk(startNode, g) && g'.cs == g.cs && WidgetsOk(startNode, g'.ws) && |g'.ws| == |g.ws|
    requires forall n :: 0 <= n < |g.ws| ==> g'.ws[n].conns == g.ws[n].conns
    ensures ConfigOk(startNode, g')
  {
    forall c | 0 <= c < |g'.cs| ensures ControlOk(g'.ws, g'.cs[c]) {
      assert ControlOk(g.ws, g.cs[c]);
    }
  }

  /** The passes up to the association parse. */
  method Prepare(fg: FunctionGroup, adjusted: seq<nat>)
    requires ConfigOk(fg.startNode, ConfigOf(fg)) && Adjusts(fg.widgets[..], adjusted)
    modifies fg.widgets, fg.controls
    ensures ConfigOk(fg.startNode, ConfigOf(fg)) && Prepared(old(ConfigOf(fg)), ConfigOf(fg))
  {
    ghost var g0 := ConfigOf(fg);
    AudioDisableNonAudio(fg);
    assert ConfigOf(fg) == AudioOnly(g0);
    Useless.AudioDisableUseless(fg);
    ghost var g := ConfigOf(fg);
    AdjustConfigs(fg, adjusted);
    AdjustedPrepared(g0, g, ConfigOf(fg), adjusted);
  }

  /** The table audioAssociationParse leaves: none for no association or more
      than fifty. */
  ghost predicate TableOf(ws: seq<Widget>, as0: seq<Assoc>)
  {
    if 1 <= Parser.SlotsBelow(ws, Parser.LAST + 1) <= Parser.MAX_ASSOCS then Parser.Table(ws, as0, Parser.LAST + 1)
    else as0 == []
  }

  lemma TableReady(ws: seq<Widget>, as0: seq<Assoc>)
    requires !Live(ws, 0) && TableOf(ws, as0)
    ensures forall a :: 0 <= a < |as0| ==> AssocReady(as0[a]) && PinsArePins(ws, as0[a])
    ensures forall a, s :: 0 <= a < |as0| && 0 <= s < |as0[a].pins| && as0[a].pins[s] != 0 ==>
              Live(ws, as0[a].pins[s]) && Association(ws[as0[a].pins[s]].config) != 0
  {
    if as0 != [] {
      Facts.TableMeaning(ws, as0);
    }
    forall a | 0 <= a < |as0|
      ensures AssocReady(as0[a]) && PinsArePins(ws, as0[a])
      ensures forall s :: 0 <= s < |as0[a].pins| && as0[a].pins[s] != 0 ==>
                Live(ws, as0[a].pins[s]) && Association(ws[as0[a].pins[s]].config) != 0
    {
      assert Facts.OwnRecord(ws, as0[a]);
    }
  }

  /** A parse from start to end: the nodes as read, what the passes before the
      association parse leave, the associations parsed, the stages of tracing
      them in turn, the tree, the pruned tree, and the associations at the end. */
  datatype Parse = Parse(start: Config, prepared: Config, table: seq<Assoc>, stages: seq<Stage>, tree: Config,
                         pruned: Config, assocs: seq<Assoc>)

  ghost predicate Parsed(startNode: nat, g: Parse)
  {
    && WidgetsOk(startNode, g.prepared.ws) && Prepared(g.start, g.prepared)
    && TableOf(g.prepared.ws, g.table)
    && TreeBuilt(startNode, g.prepared.ws, g.table, g.stages, g.tree.ws, g.assocs) && g.tree.cs == g.prepared.cs
    && Pruned(g.tree, g.pruned) && Stable(g.pruned) && TreeKept(g.tree, g.pruned, g.assocs)
    && Selection.Bindings(g.pruned.ws, g.assocs) && NothingCrosses(g.pruned, g.assocs)
  }

  lemma UntracedBound(g0: Config, p: Config, as0: seq<Assoc>)
    requires Prepared(g0, p) && Untraced(g0.ws)
    ensures BoundOk(p.ws, as0, 0)
  {
    PreparedPruned(g0, p);
    forall n | 0 <= n < |p.ws| ensures p.ws[n].bindAssoc == -1 && p.ws[n].bindSeqMask == {} {
      assert PrunedWidget(g0.ws[n].(config := p.ws[n].config), p.ws[n]);
    }
  }

  lemma TreeBindings(startNode: nat, p: Config, as0: seq<Assoc>, stages: seq<Stage>, t: Config, assocs: seq<Assoc>)
    requires ConfigOk(startNode, p) && TreeBuilt(startNode, p.ws, as0, stages, t.ws, assocs) && t.cs == p.cs
    ensures ConfigOk(startNode, t) && Selection.Bindings(t.ws, assocs)
    ensures forall n :: 0 <= n < |t.ws| ==> -2 <= t.ws[n].bindAssoc
  {
    forall n | 0 <= n < |t.ws| ensures t.ws[n].conns == p.ws[n].conns {
      assert OnlyTraced(p.ws[n], t.ws[n]);
    }
    SameConnections(startNode, p, t);
  }

  /** Builds the tree of the parsed associations and prunes it. */
  method TraceAndPrune(fg: FunctionGroup, ghost start: Config) returns (ghost g: Parse, ghost ps: Passes)
    requires ConfigOk(fg.startNode, ConfigOf(fg)) && Prepared(start, ConfigOf(fg)) && Untraced(start.ws)
    requires TableOf(fg.widgets[..], fg.assocs[..])
    modifies fg.widgets, fg.controls, fg.assocs
    ensures ConfigOk(fg.startNode, ConfigOf(fg)) && Parsed(fg.startNode, g)
    ensures g.start == start && g.prepared == old(ConfigOf(fg)) && g.table == old(fg.assocs[..])
    ensures g.pruned == ConfigOf(fg) && g.assocs == fg.assocs[..]
    ensures Trimmed(fg.startNode, g.assocs, g.tree, ps, g.pruned)
  {
    ghost var p, as0 := ConfigOf(fg), fg.assocs[..];
    TableReady(p.ws, as0);
    UntracedBound(start, p, as0);
    ghost var stages := AudioBuildTree(fg);
    ghost var t := ConfigOf(fg);
    TreeBindings(fg.startNode, p, as0, stages, t, fg.assocs[..]);
    ps := PruneTree(fg);
    g := Parse(start, p, as0, stages, t, ConfigOf(fg), fg.assocs[..]);
  }

  /** Parsing an audio function group. */
  method ParseAudioGroup(fg: FunctionGroup, adjusted: seq<nat>) returns (ok: bool, ghost g: Parse, ghost ps: Passes)
    requires ConfigOk(fg.startNode, ConfigOf(fg)) && Untraced(fg.widgets[..])
    requires Adjusts(fg.widgets[..], adjusted) && fg.assocs.Length == 0
    modifies fg, fg.widgets, fg.controls, fg.assocs
    ensures ConfigOk(fg.startNode, ConfigOf(fg)) && Parsed(fg.startNode, g)
    ensures g.start == old(ConfigOf(fg)) && g.pruned == ConfigOf(fg) && g.assocs == fg.assocs[..]
    ensures Trimmed(fg.startNode, g.assocs, g.tree, ps, g.pruned)
    ensures ok <==> 1 <= Parser.SlotsBelow(g.prepared.ws, Parser.LAST + 1) <= Parser.MAX_ASSOCS
    ensures fresh(fg.assocs) || fg.assocs == old(fg.assocs)
  {
    ghost var start := ConfigOf(fg);
    Prepare(fg, adjusted);
    ghost var p := ConfigOf(fg);
    var numAssocs;
    ok, numAssocs := Parser.AudioAssociationParse(fg);
    assert ConfigOf(fg) == p;
    g, ps := TraceAndPrune(fg, start);
  }

  // ----- What the parse guarantees -----

  lemma PreparedAcyclic(g0: Config, p: Config)
    requires Prepared(g0, p) && Acyclic(g0.ws)
    ensures Acyclic(p.ws)
  {
    PreparedPruned(g0, p);
    var rank :| Ranks(g0.ws, rank);
    forall n, i | 0 <= n < |p.ws| && Enabled(p.ws[n], i) && 0 <= p.ws[n].conns[i] < |p.ws|
                  && p.ws[p.ws[n].conns[i]].kind != PinComplex
      ensures rank[p.ws[n].conns[i]] < rank[n]
    {
      assert PrunedWidget(g0.ws[n].(config := p.ws[n].config), p.ws[n]);
      assert Enabled(g0.ws[n], i);
    }
    assert Ranks(p.ws, rank);
  }

  lemma PreparedBeeps(g0: Config, p: Config)
    requires Prepared(g0, p) && BeepsHaveNoInputs(g0.ws)
    ensures BeepsHaveNoInputs(p.ws)
  {
    PreparedPruned(g0, p);
    forall n | 0 <= n < |p.ws| && p.ws[n].enable && p.ws[n].kind == BeepGenerator ensures p.ws[n].conns == [] {
      assert PrunedWidget(g0.ws[n].(config := p.ws[n].config), p.ws[n]);
    }
  }

  lemma PreparedUnpatched(g0: Config, p: Config)
    requires Prepared(g0, p) && Unpatched(g0.ws)
    ensures Unpatched(p.ws)
  {
    PreparedPruned(g0, p);
    forall n | 0 <= n < |p.ws|
      ensures p.ws[n].favoritDAC == 0
      ensures Live(p.ws, n) && p.ws[n].bindAssoc < 0 ==> p.ws[n] == Cleared(p.ws[n])
    {
      assert PrunedWidget(g0.ws[n].(config := p.ws[n].config), p.ws[n]);
      if Live(p.ws, n) && p.ws[n].bindAssoc < 0 {
        assert Live(g0.ws, n) && g0.ws[n] == Cleared(g0.ws[n]);
      }
    }
  }

  lemma PinWanted(startNode: nat, g: Parse, a: nat, s: nat)
    requires Parsed(startNode, g)
    requires a < |g.assocs| && s < PINS && AssocOk(g.assocs[a]) && g.assocs[a].pins[s] != 0
    ensures PinsArePins(g.prepared.ws, g.table[a]) && WantedPin(g.tree.ws, g.assocs[a].pins[s])
  {
    TableReady(g.prepared.ws, g.table);
    PreparedPruned(g.start, g.prepared);
    assert TracedFrom(g.table[a], g.assocs[a]);
    var n := g.table[a].pins[s];
    assert Live(g.prepared.ws, n) && OnlyTraced(g.prepared.ws[n], g.tree.ws[n]);
  }

  /** Association a is at the end what its turn made of it, and enabled exactly
      when the parse left it so and its turn could trace it. */
  ghost predicate TracedInTurn(g: Parse, a: nat)
  {
    && a < |g.table| && |g.assocs| == |g.table| && |g.stages| == |g.table| + 1
    && AssocReady(g.table[a]) && TurnOf(g.table, g.stages, a)
    && g.assocs[a] == g.stages[a + 1].assocs[a]
    && (g.assocs[a].enable <==> g.table[a].enable && Traceable(g.stages[a].ws, g.stages[a].assocs, a))
  }

  /** Without user patches exactly those associations are in use at the end
      that the parse left enabled and that could be traced in their turn. */
  lemma TracedExactly(startNode: nat, g: Parse, a: nat)
    requires Parsed(startNode, g) && Unpatched(g.start.ws) && a < |g.table|
    ensures TracedInTurn(g, a)
  {
    PreparedUnpatched(g.start, g.prepared);
    TurnsDecide(g.prepared.ws, g.table, g.stages, g.assocs, a);
  }

  lemma TurnsDecide(ws: seq<Widget>, as0: seq<Assoc>, stages: seq<Stage>, assocs: seq<Assoc>, a: nat)
    requires Turns(as0, stages, |as0|) && stages[0].ws == ws && stages[|as0|].assocs == assocs
    requires Unpatched(ws) && a < |as0|
    ensures |assocs| == |as0| && TurnOf(as0, stages, a)
    ensures assocs[a] == stages[a + 1].assocs[a]
    ensures assocs[a].enable <==> as0[a].enable && Traceable(stages[a].ws, stages[a].assocs, a)
  {
    TurnTraceable(as0, stages, |as0|, a);
    TurnLasts(as0, stages, |as0|, a, |as0|);
    assert TurnOf(as0, stages, a);
  }

  lemma SelectionsOfTree(ws: seq<Widget>, asc: Assoc, a: int)
    requires Exclusive(ws, asc, a)
    ensures SelectionsMade(ws, a)
  {
    forall n | Live(ws, n) && ws[n].bindAssoc == a && Selecting(ws[n]) ensures 0 <= ws[n].selconn < |ws[n].conns| {
      assert Held(ws[n], asc, PINS);
    }
  }

  lemma AssocBuilt(startNode: nat, g: Parse, a: nat)
    requires Parsed(startNode, g) && BeepsHaveNoInputs(g.start.ws)
    requires a < |g.assocs| && g.assocs[a].enable
    ensures AssocOk(g.assocs[a]) && Built(g.tree.ws, g.assocs[a], a, Acyclic(g.prepared.ws))
  {
    PreparedBeeps(g.start, g.prepared);
    TableReady(g.prepared.ws, g.table);
  }

  /** The routes left of pin s are those of the tree by selected hops. */
  lemma PlaybackRoute(startNode: nat, g: Parse, a: nat, s: nat, r: Route, sel: bool)
    requires Parsed(startNode, g) && a < |g.assocs| && g.assocs[a].dir == Out && s < PINS && AssocOk(g.assocs[a])
    requires g.assocs[a].pins[s] != 0 && Source(r) == g.assocs[a].pins[s] && SelectionsMade(g.tree.ws, a)
    ensures LiveRoute(g.pruned.ws, r, a, s, sel) <==> LiveRoute(g.tree.ws, r, a, s, true)
  {
    PinWanted(startNode, g, a, s);
    assert Concerned(g.tree, g.assocs, Source(r), a, Out) && RouteKeptExactly(g.tree, g.pruned, r, a, s);
  }

  /** Every pin of a playback association keeps, to the end of the parse, the
      routes by selected hops that it had in the tree, and no other is left.
      If no cycle avoids the pins there is one to its DAC, and only a redirected
      jack shares a widget with another pin. */
  lemma PlaybackComplete(startNode: nat, g: Parse, a: nat)
    requires Parsed(startNode, g) && BeepsHaveNoInputs(g.start.ws)
    requires a < |g.assocs| && g.assocs[a].enable && g.assocs[a].dir == Out
    ensures AssocOk(g.assocs[a]) && AllRouted(g.tree.ws, g.assocs[a], a, 0, false)
    ensures Exclusive(g.pruned.ws, g.assocs[a], a)
    ensures forall r, s, sel :: 0 <= s < PINS && g.assocs[a].pins[s] != 0 && Source(r) == g.assocs[a].pins[s] ==>
              (LiveRoute(g.pruned.ws, r, a, s, sel) <==> LiveRoute(g.tree.ws, r, a, s, true))
    ensures Acyclic(g.start.ws) ==> AllRouted(g.pruned.ws, g.assocs[a], a, 0, true)
  {
    AssocBuilt(startNode, g, a);
    var asc := g.assocs[a];
    AnyRouted(g.tree.ws, asc, a, Acyclic(g.prepared.ws));
    SelectionsOfTree(g.tree.ws, asc, a);
    forall r, s, sel | 0 <= s < PINS && asc.pins[s] != 0 && Source(r) == asc.pins[s]
      ensures LiveRoute(g.pruned.ws, r, a, s, sel) <==> LiveRoute(g.tree.ws, r, a, s, true)
    {
      PlaybackRoute(startNode, g, a, s, r, sel);
    }
    PrunedExclusive(g.tree, g.pruned, asc, a);
    if Acyclic(g.start.ws) {
      PreparedAcyclic(g.start, g.prepared);
      PlaybackRouted(startNode, g, a);
    }
  }

  lemma PrunedExclusive(g: Config, g': Config, asc: Assoc, a: int)
    requires Pruned(g, g') && Exclusive(g.ws, asc, a)
    ensures Exclusive(g'.ws, asc, a)
  {
    forall n | Live(g'.ws, n) && g'.ws[n].bindAssoc == a ensures Held(g'.ws[n], asc, PINS) {
      assert PrunedWidget(g.ws[n], g'.ws[n]) && Live(g.ws, n);
    }
  }

  lemma PlaybackRouted(startNode: nat, g: Parse, a: nat)
    requires Parsed(startNode, g) && a < |g.assocs| && g.assocs[a].dir == Out && AssocOk(g.assocs[a])
    requires SelectionsMade(g.tree.ws, a) && AllRouted(g.tree.ws, g.assocs[a], a, 0, true)
    ensures AllRouted(g.pruned.ws, g.assocs[a], a, 0, true)
  {
    var asc := g.assocs[a];
    forall s | 0 <= s < PINS && asc.pins[s] != 0 ensures PinRouted(g.pruned.ws, asc, a, s, true) {
      assert PinRouted(g.tree.ws, asc, a, s, true);
      var r :| LiveRoute(g.tree.ws, r, a, s, true) && Source(r) == asc.pins[s] && Target(r) == asc.dacs[s];
      PlaybackRoute(startNode, g, a, s, r, true);
    }
  }

  lemma AnyRouted(ws: seq<Widget>, asc: Assoc, a: int, sel: bool)
    requires AssocOk(asc) && AllRouted(ws, asc, a, 0, sel)
    ensures AllRouted(ws, asc, a, 0, false)
  {
    forall s | 0 <= s < PINS && asc.pins[s] != 0 ensures PinRouted(ws, asc, a, s, false) {
      assert PinRouted(ws, asc, a, s, sel);
      var r :| LiveRoute(ws, r, a, s, sel) && Source(r) == asc.pins[s] && Target(r) == asc.dacs[s];
      if sel {
        SelectedIsLive(ws, r, a, s);
      }
    }
  }

  /** All pins of a recording association have one ADC, each had a walk to it
      in the traced tree, and exactly the walks without a monitor feeding a
      mixer are left at the end of the parse. */
  lemma RecordingComplete(startNode: nat, g: Parse, a: nat)
    requires Parsed(startNode, g) && BeepsHaveNoInputs(g.start.ws)
    requires a < |g.assocs| && g.assocs[a].enable && g.assocs[a].dir == In
    ensures AssocOk(g.assocs[a]) && AllJoined(g.tree.ws, g.assocs[a], a)
    ensures forall w, s :: 0 <= s < PINS && g.assocs[a].pins[s] != 0 && LiveWalk(g.tree.ws, w, a, s)
                           && w[0] == g.assocs[a].pins[s] ==>
              (LiveWalk(g.pruned.ws, w, a, s) <==> Unmonitored(g.tree.ws, w))
  {
    AssocBuilt(startNode, g, a);
    forall w, s | 0 <= s < PINS && g.assocs[a].pins[s] != 0 && LiveWalk(g.tree.ws, w, a, s)
                  && w[0] == g.assocs[a].pins[s]
      ensures LiveWalk(g.pruned.ws, w, a, s) <==> Unmonitored(g.tree.ws, w)
    {
      PinWanted(startNode, g, a, s);
      assert Concerned(g.tree, g.assocs, w[0], a, In);
    }
  }

  // ----- Recording walks, said of the state before the extra trace -----

  /** The mixers of input associations that supply an output within the depth
      of a trace, and so become monitors, and what is one from the start. */
  ghost function SureMonitors(ws: seq<Widget>, assocs: seq<Assoc>): set<int>
  {
    set n | 0 <= n < |ws| &&
      (ws[n].monitor || (ws[n].kind == Mixer && BoundTo(ws[n], assocs, In) && ReachesOut(ws, assocs, n, 0)))
  }

  /** The same for walks of any length. */
  ghost function PossibleMonitors(ws: seq<Widget>, assocs: seq<Assoc>): set<int>
  {
    set n | 0 <= n < |ws| &&
      (ws[n].monitor || (ws[n].kind == Mixer && BoundTo(ws[n], assocs, In) && LeadsOut(ws, assocs, n)))
  }

  /** Nowhere does p run from a widget of ms into a mixer of several inputs. */
  predicate Avoids(ws: seq<Widget>, p: seq<int>, ms: set<int>)
  {
    |p| <= 1 ||
    (&& 0 <= p[1] < |ws|
     && !(ws[p[1]].kind == Mixer && |ws[p[1]].conns| > 1 && p[0] in ms)
     && Avoids(ws, p[1..], ms))
  }

  /** The extra trace leaves the walks of an association of the table alone,
      and what it makes a monitor on them is bounded from both sides. */
  lemma {:induction false} ExtraWalk(startNode: nat, ws: seq<Widget>, ws': seq<Widget>, assocs: seq<Assoc>, p: seq<int>,
                                     a: nat, s: int)
    requires ExtraTraced(startNode, ws, ws', assocs) && a < |assocs| && assocs[a].dir == In
    requires LiveWalk(ws', p, a, s)
    ensures LiveWalk(ws, p, a, s)
    ensures Unmonitored(ws', p) ==> Avoids(ws, p, SureMonitors(ws, assocs))
    ensures Avoids(ws, p, PossibleMonitors(ws, assocs)) ==> Unmonitored(ws', p)
    decreases |p|
  {
    assert TappedAt(ws[p[0]], ws'[p[0]]) && TappedFor(ws, assocs, p[0], ws'[p[0]]);
    if |p| > 1 {
      ExtraWalk(startNode, ws, ws', assocs, p[1..], a, s);
      assert p[1..][0] == p[1];
      assert TappedAt(ws[p[1]], ws'[p[1]]);
      var i :| Enabled(ws'[p[1]], i) && ws'[p[1]].conns[i] == p[0];
      assert Enabled(ws[p[1]], i);
    }
  }

  lemma WalkLeft(startNode: nat, ws: seq<Widget>, t: Config, z: Config, assocs: seq<Assoc>, w: seq<int>, a: nat, s: int)
    requires ExtraTraced(startNode, ws, t.ws, assocs) && a < |assocs| && assocs[a].dir == In
    requires BeepsHaveNoInputs(ws) && |w| > 0 && 0 <= w[0] < |ws| && ws[w[0]].kind == PinComplex
    requires Pruned(t, z) && (LiveWalk(t.ws, w, a, s) ==> (LiveWalk(z.ws, w, a, s) <==> Unmonitored(t.ws, w)))
    ensures LiveWalk(z.ws, w, a, s) ==> LiveWalk(ws, w, a, s) && Avoids(ws, w, SureMonitors(ws, assocs))
    ensures LiveWalk(ws, w, a, s) && Avoids(ws, w, PossibleMonitors(ws, assocs)) ==> LiveWalk(z.ws, w, a, s)
  {
    if LiveWalk(z.ws, w, a, s) {
      PrunedWalk(t, z, w, a, s);
      ExtraWalk(startNode, ws, t.ws, assocs, w, a, s);
    }
    if LiveWalk(ws, w, a, s) {
      TappedWalk(ws, t.ws, assocs, w, a, s);
      ExtraWalk(startNode, ws, t.ws, assocs, w, a, s);
    }
  }

  /** Which walks of a recording association are left: all that avoid the
      possible monitors, only those that avoid the sure ones. */
  lemma RecordingWalk(startNode: nat, g: Parse, a: nat, s: nat, w: seq<int>)
    requires Parsed(startNode, g) && BeepsHaveNoInputs(g.start.ws)
    requires a < |g.assocs| && g.assocs[a].enable && g.assocs[a].dir == In && s < PINS && AssocOk(g.assocs[a])
    requires g.assocs[a].pins[s] != 0 && |w| > 0 && w[0] == g.assocs[a].pins[s]
    ensures |g.stages| == |g.table| + 1
    ensures var ws := g.stages[|g.table|].ws;
            LiveWalk(g.pruned.ws, w, a, s) ==> LiveWalk(ws, w, a, s) && Avoids(ws, w, SureMonitors(ws, g.assocs))
    ensures var ws := g.stages[|g.table|].ws;
            LiveWalk(ws, w, a, s) && Avoids(ws, w, PossibleMonitors(ws, g.assocs)) ==> LiveWalk(g.pruned.ws, w, a, s)
  {
    PinWanted(startNode, g, a, s);
    StageBeeps(startNode, g);
    StagePin(startNode, g, w[0]);
    assert Concerned(g.tree, g.assocs, w[0], a, In);
    WalkLeft(startNode, g.stages[|g.table|].ws, g.tree, g.pruned, g.assocs, w, a, s);
  }

  lemma StagePin(startNode: nat, g: Parse, n: int)
    requires Parsed(startNode, g) && WantedPin(g.tree.ws, n)
    ensures |g.stages| == |g.table| + 1
    ensures 0 <= n < |g.stages[|g.table|].ws| && g.stages[|g.table|].ws[n].kind == PinComplex
  {
    assert TappedAt(g.stages[|g.table|].ws[n], g.tree.ws[n]);
  }

  lemma StageBeeps(startNode: nat, g: Parse)
    requires Parsed(startNode, g) && BeepsHaveNoInputs(g.start.ws)
    ensures BeepsHaveNoInputs(g.stages[|g.table|].ws)
  {
    var ws := g.stages[|g.table|].ws;
    PreparedBeeps(g.start, g.prepared);
    forall n | 0 <= n < |ws| && ws[n].enable && ws[n].kind == BeepGenerator ensures ws[n].conns == [] {
      assert TappedAt(ws[n], g.tree.ws[n]) && OnlyTraced(g.prepared.ws[n], g.tree.ws[n]);
    }
  }

  /** Every widget left is bound: to an enabled association of the table, or
      to the pseudo association -2, which no pin ever is. */
  lemma BindingsSafe(startNode: nat, g: Parse, n: int)
    requires Parsed(startNode, g) && Live(g.pruned.ws, n)
    ensures var b := g.pruned.ws[n].bindAssoc; b == -2 || (0 <= b < |g.assocs| && g.assocs[b].enable)
    ensures g.pruned.ws[n].kind == PinComplex ==> g.pruned.ws[n].bindAssoc != -2
  {
    assert PrunedWidget(g.tree.ws[n], g.pruned.ws[n]) && Live(g.tree.ws, n);
  }

  /** At the end no enabled connection of a selecting widget crosses from one
      association into another, but for input monitoring and the pseudo
      association, and no enabled control amplifies such a connection. */
  lemma EndSeparated(startNode: nat, g: Parse, n: int, k: int)
    requires Parsed(startNode, g) && Live(g.pruned.ws, n) && Enabled(g.pruned.ws[n], k)
    requires |g.pruned.ws[n].conns| > 1 && g.pruned.ws[n].kind != Mixer
    ensures Live(g.pruned.ws, g.pruned.ws[n].conns[k])
    ensures var w, child := g.pruned.ws[n], g.pruned.ws[g.pruned.ws[n].conns[k]];
            || (w.bindAssoc == child.bindAssoc && exists b :: b in w.bindSeqMask && b in child.bindSeqMask)
            || w.bindAssoc == -2 || child.bindAssoc == -2
            || (w.monitor && 0 <= child.bindAssoc < |g.assocs| && g.assocs[child.bindAssoc].dir == In)
  {
    assert MayConnect(g.pruned.ws, g.assocs, n, k);
    var w, child := g.pruned.ws[n], g.pruned.ws[g.pruned.ws[n].conns[k]];
    if forall b :: b in w.bindSeqMask ==> b !in child.bindSeqMask {
      assert w.bindSeqMask * child.bindSeqMask == {};
    }
  }

  /** At the end no power widget or volume knob is enabled, and only widgets that
      were bound to an association or to the pseudo association. */
  lemma EndAssociated(startNode: nat, g: Parse, ps: Passes, n: int)
    requires Parsed(startNode, g) && Trimmed(startNode, g.assocs, g.tree, ps, g.pruned) && Live(g.pruned.ws, n)
    ensures 0 <= n < |g.start.ws| && g.start.ws[n].enable && g.start.ws[n].kind !in {PowerWidget, VolumeKnob}
    ensures g.pruned.ws[n].bindAssoc != -1
  {
    PrunedTwice(ps.associated, ps.selected, ps.useful);
    PrunedTwice(ps.associated, ps.useful, ps.crossed);
    PrunedTwice(ps.associated, ps.crossed, g.pruned);
    assert PrunedWidget(ps.associated.ws[n], g.pruned.ws[n]) && PrunedWidget(g.tree.ws[n], ps.associated.ws[n]);
    assert OnlyTraced(g.prepared.ws[n], g.tree.ws[n]);
    assert PrunedWidget(AudioOnly(g.start).ws[n], Unadjusted(g.start, g.prepared).ws[n]);
  }

  lemma ControlsKept(startNode: nat, g: Parse)
    requires Parsed(startNode, g)
    ensures |g.pruned.cs| == |g.start.cs|
    ensures forall c :: 0 <= c < |g.start.cs| ==>
              g.pruned.cs[c] == g.start.cs[c] || g.pruned.cs[c] == Silenced(g.start.cs[c])
  {
    PreparedPruned(g.start, g.prepared);
  }

  /** A control is as it was or silent, and a silent one stays what it was. */
  lemma ControlsSilenced(startNode: nat, g: Parse)
    requires Parsed(startNode, g) && DisabledSilent(g.start.cs)
    ensures DisabledSilent(g.pruned.cs) && |g.pruned.cs| == |g.start.cs|
    ensures forall c :: 0 <= c < |g.start.cs| ==>
              g.pruned.cs[c] == g.start.cs[c] || g.pruned.cs[c] == Silenced(g.start.cs[c])
    ensures forall c :: 0 <= c < |g.pruned.cs| && g.pruned.cs[c].enable ==>
              && Live(g.pruned.ws, g.pruned.cs[c].widget)
              && (g.pruned.cs[c].child != -1 ==> Live(g.pruned.ws, g.pruned.cs[c].child))
  {
    ControlsKept(startNode, g);
    forall c | 0 <= c < |g.pruned.cs| && g.pruned.cs[c].enable
      ensures Live(g.pruned.ws, g.pruned.cs[c].widget)
      ensures g.pruned.cs[c].child != -1 ==> Live(g.pruned.ws, g.pruned.cs[c].child)
    {
      assert ControlStable(g.pruned.ws, g.pruned.cs[c]);
    }
  }
}
