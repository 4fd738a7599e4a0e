/** What of the traced tree survives pruning: the passes that follow
    audioBuildTree leave exactly the playback routes by selected hops, and
    exactly the recording walks that do not run from an input monitor into a
    mixer. */
module RouteSurvival {
  import opened HdaGraph
  import opened Configuration
  import opened OutputTrace
  import opened OutputAssociation
  import opened MonitorTrace
  import opened TreeBuilder
  import opened PruningPasses
  import Selection = SelectionPasses

  // ----- audioDisableUseless -----

  /** Within the widgets of ns alone nothing is useless. */
  ghost predicate Sustained(g: Config, ns: set<int>)
  {
    forall n :: n in ns ==>
      && Live(g.ws, n) && !UselessPin(g.ws[n])
      && (Routes(g.ws[n]) ==>
            && (exists i :: Enabled(g.ws[n], i) && g.ws[n].conns[i] in ns)
            && (exists k, i :: k in ns && Live(g.ws, k) && Enabled(g.ws[k], i) && g.ws[k].conns[i] == n))
  }

  /** A widget of g with only its connections to ns, switched off outside ns. */
  function Confined(w: Widget, n: int, ns: set<int>): Widget
  {
    w.(enable := n in ns,
       connsenable := seq(|w.conns|, i requires 0 <= i < |w.conns| => Enabled(w, i) && w.conns[i] in ns))
  }

  /** The widgets of ns, what connects them, and no controls. */
  function Confine(g: Config, ns: set<int>): Config
  {
    Config(seq(|g.ws|, n requires 0 <= n < |g.ws| => Confined(g.ws[n], n, ns)),
           seq(|g.cs|, c requires 0 <= c < |g.cs| => g.cs[c].(enable := false)))
  }

  lemma ConfineStable(g: Config, ns: set<int>)
    requires Sustained(g, ns)
    ensures Stable(Confine(g, ns)) && Sub(Confine(g, ns), g)
  {
    var s := Confine(g, ns);
    forall n | Live(s.ws, n) && Routes(s.ws[n]) ensures HasInput(s.ws[n]) && HasConsumer(s.ws, n) {
      var i :| Enabled(g.ws[n], i) && g.ws[n].conns[i] in ns;
      assert Enabled(s.ws[n], i);
      var k, j :| k in ns && Live(g.ws, k) && Enabled(g.ws[k], j) && g.ws[k].conns[j] == n;
      assert Live(s.ws, k) && Enabled(s.ws[k], j);
    }
  }

  /** g' is at least as large as every stable part of g. */
  ghost predicate Greatest(g: Config, g': Config)
  {
    forall s :: Stable(s) && Sub(s, g) ==> Sub(s, g')
  }

  lemma SustainedStays(g: Config, g': Config, ns: set<int>)
    requires Sustained(g, ns) && Greatest(g, g')
    ensures forall n :: n in ns ==> Live(g'.ws, n)
    ensures |g'.ws| == |g.ws|
    ensures forall n, i :: n in ns && Live(g.ws, n) && Enabled(g.ws[n], i) && g.ws[n].conns[i] in ns ==>
              Enabled(g'.ws[n], i)
  {
    var s := Confine(g, ns);
    ConfineStable(g, ns);
    assert Sub(s, g');
    forall n | n in ns ensures Live(g'.ws, n) {
      assert Live(s.ws, n);
    }
    forall n, i | n in ns && Live(g.ws, n) && Enabled(g.ws[n], i) && g.ws[n].conns[i] in ns
      ensures Enabled(g'.ws[n], i)
    {
      assert Live(s.ws, n) && Enabled(s.ws[n], i);
    }
  }

  // ----- Playback routes -----

  lemma {:induction false} HopFacts(ws: seq<Widget>, r: Route, a: int, s: int, sel: bool, n: int, i: int)
    requires LiveRoute(ws, r, a, s, sel) && (n, i) in Hops(r)
    ensures n in Nodes(r) && Carries(ws, n, a, s) && Enabled(ws[n], i)
    ensures ws[n].kind != AudioOutput && ws[n].kind != AudioInput
    ensures ws[n].conns[i] in Nodes(r) && Carries(ws, ws[n].conns[i], a, s) && ws[ws[n].conns[i]].kind != PinComplex
    ensures sel && Selecting(ws[n]) ==> ws[n].selconn == i
  {
    match r
    case Dac(_) =>
    case Via(m, j, rest) =>
      LiveRouteNodes(ws, rest, a, s, sel);
      if (n, i) != (m, j) {
        HopFacts(ws, rest, a, s, sel, n, i);
      }
  }

  /** Every widget of the route but the first is fed by another, every one
      but the last feeds another. */
  lemma {:induction false} RouteLinks(ws: seq<Widget>, r: Route, a: int, s: int, sel: bool, n: int)
    requires LiveRoute(ws, r, a, s, sel) && n in Nodes(r)
    ensures Live(ws, n) && (ws[n].kind == AudioOutput || exists i :: (n, i) in Hops(r))
    ensures n == Source(r) ||
            exists k, i :: (k, i) in Hops(r) && Live(ws, k) && Enabled(ws[k], i) && ws[k].conns[i] == n
  {
    match r
    case Dac(_) =>
    case Via(m, j, rest) =>
      assert (m, j) in Hops(r);
      if n in Nodes(rest) {
        RouteLinks(ws, rest, a, s, sel, n);
        if n != m && n != Source(rest) {
          var k, i :| (k, i) in Hops(rest) && Live(ws, k) && Enabled(ws[k], i) && ws[k].conns[i] == n;
          assert (k, i) in Hops(r);
        }
        if ws[n].kind != AudioOutput {
          var i :| (n, i) in Hops(rest);
          assert (n, i) in Hops(r);
        }
      }
  }

  /** Pruning makes no route live. */
  lemma {:induction false} PrunedRoute(g: Config, g': Config, r: Route, a: int, s: int, sel: bool)
    requires Pruned(g, g') && LiveRoute(g'.ws, r, a, s, sel)
    ensures LiveRoute(g.ws, r, a, s, sel)
  {
    assert PrunedWidget(g.ws[Source(r)], g'.ws[Source(r)]);
    match r
    case Dac(_) =>
    case Via(_, _, rest) => PrunedRoute(g, g', rest, a, s, sel);
  }

  /** A route stays live as long as its widgets and hops are enabled. */
  lemma {:induction false} RouteKept(g: Config, g': Config, r: Route, a: int, s: int, sel: bool)
    requires Pruned(g, g') && LiveRoute(g.ws, r, a, s, sel)
    requires forall n :: n in Nodes(r) ==> Live(g'.ws, n)
    requires forall n, i :: (n, i) in Hops(r) ==> 0 <= n < |g'.ws| && Enabled(g'.ws[n], i)
    ensures LiveRoute(g'.ws, r, a, s, sel)
  {
    assert Source(r) in Nodes(r);
    assert PrunedWidget(g.ws[Source(r)], g'.ws[Source(r)]);
    match r
    case Dac(_) =>
    case Via(n, i, rest) =>
      assert (n, i) in Hops(r);
      assert Source(rest) in Nodes(rest) && PrunedWidget(g.ws[Source(rest)], g'.ws[Source(rest)]);
      RouteKept(g, g', rest, a, s, sel);
  }

  lemma RouteSustained(g: Config, r: Route, a: int, s: int, sel: bool)
    requires LiveRoute(g.ws, r, a, s, sel)
    requires g.ws[Source(r)].kind == PinComplex && !UselessPin(g.ws[Source(r)])
    ensures Sustained(g, Nodes(r))
  {
    LiveRouteNodes(g.ws, r, a, s, sel);
    forall n | n in Nodes(r)
      ensures !UselessPin(g.ws[n])
      ensures Routes(g.ws[n]) ==>
            && (exists i :: Enabled(g.ws[n], i) && g.ws[n].conns[i] in Nodes(r))
            && (exists k, i :: k in Nodes(r) && Live(g.ws, k) && Enabled(g.ws[k], i) && g.ws[k].conns[i] == n)
    {
      RouteLinks(g.ws, r, a, s, sel, n);
      if n != Source(r) {
        var k, i :| (k, i) in Hops(r) && Live(g.ws, k) && Enabled(g.ws[k], i) && g.ws[k].conns[i] == n;
        HopFacts(g.ws, r, a, s, sel, k, i);
      }
      if Routes(g.ws[n]) {
        var i :| (n, i) in Hops(r);
        HopFacts(g.ws, r, a, s, sel, n, i);
      }
    }
  }

  /** Every route of a wanted pin stays, whether by selected hops or not. */
  lemma RouteThroughUseless(g: Config, g': Config, r: Route, a: int, s: int, sel: bool)
    requires 0 <= Source(r) < |g.ws| && g.ws[Source(r)].kind == PinComplex && !UselessPin(g.ws[Source(r)])
    requires Pruned(g, g') && Greatest(g, g')
    ensures LiveRoute(g'.ws, r, a, s, sel) <==> LiveRoute(g.ws, r, a, s, sel)
  {
    if LiveRoute(g.ws, r, a, s, sel) {
      RouteSustained(g, r, a, s, sel);
      SustainedStays(g, g', Nodes(r));
      forall n, i | (n, i) in Hops(r) ensures 0 <= n < |g'.ws| && Enabled(g'.ws[n], i) {
        HopFacts(g.ws, r, a, s, sel, n, i);
      }
      RouteKept(g, g', r, a, s, sel);
    } else if LiveRoute(g'.ws, r, a, s, sel) {
      PrunedRoute(g, g', r, a, s, sel);
    }
  }

  lemma RouteThroughUnassociated(g: Config, g': Config, assocs: seq<Assoc>, r: Route, a: nat, s: int, sel: bool)
    requires a < |assocs| && assocs[a].dir == Out
    requires Pruned(g, g') && CutUpTo(Associated(g).ws, g'.ws, assocs, |g.ws|)
    ensures LiveRoute(g'.ws, r, a, s, sel) <==> LiveRoute(g.ws, r, a, s, sel)
  {
    if LiveRoute(g.ws, r, a, s, sel) {
      LiveRouteNodes(g.ws, r, a, s, sel);
      var ws1 := Associated(g).ws;
      forall n | n in Nodes(r) ensures Live(g'.ws, n) {
        assert Carries(g.ws, n, a, s);
        assert ws1[n].enable;
      }
      forall n, i | (n, i) in Hops(r) ensures 0 <= n < |g'.ws| && Enabled(g'.ws[n], i) {
        HopFacts(g.ws, r, a, s, sel, n, i);
        assert Enabled(ws1[n], i) && !Cut(ws1, assocs, n, i, |g.ws|);
      }
      RouteKept(g, g', r, a, s, sel);
    } else if LiveRoute(g'.ws, r, a, s, sel) {
      PrunedRoute(g, g', r, a, s, sel);
    }
  }

  /** Every selecting widget of association a has selected a connection. */
  ghost predicate SelectionsMade(ws: seq<Widget>, a: int)
  {
    forall n :: Live(ws, n) && ws[n].bindAssoc == a && Selecting(ws[n]) ==> 0 <= ws[n].selconn < |ws[n].conns|
  }

  /** After the pass all routes are by selected hops. */
  lemma {:induction false} HopsSelected(g: Config, g': Config, assocs: seq<Assoc>, r: Route, a: nat, s: int)
    requires a < |assocs| && assocs[a].dir == Out && SelectionsMade(g.ws, a) && Pruned(g, g')
    requires forall n :: 0 <= n < |g.ws| ==> Selection.SelectedIn(g.ws[n], g'.ws[n], assocs)
    requires LiveRoute(g'.ws, r, a, s, false)
    ensures LiveRoute(g'.ws, r, a, s, true)
  {
    match r
    case Dac(_) =>
    case Via(n, i, rest) =>
      HopsSelected(g, g', assocs, rest, a, s);
      assert Selection.SelectedIn(g.ws[n], g'.ws[n], assocs);
      if Selecting(g'.ws[n]) {
        assert Selecting(g.ws[n]) && 0 <= g.ws[n].selconn < |g.ws[n].conns|;
        assert Selection.KeptSelected(g.ws[n], assocs, i);
      }
  }

  /** Exactly the routes by selected hops stay. */
  lemma RouteThroughNonSelected(g: Config, g': Config, assocs: seq<Assoc>, r: Route, a: nat, s: int, sel: bool)
    requires a < |assocs| && assocs[a].dir == Out && Pruned(g, g')
    requires forall n :: 0 <= n < |g.ws| ==> Selection.SelectedIn(g.ws[n], g'.ws[n], assocs)
    ensures LiveRoute(g.ws, r, a, s, true) ==> LiveRoute(g'.ws, r, a, s, sel)
    ensures LiveRoute(g'.ws, r, a, s, sel) && (sel || SelectionsMade(g.ws, a)) ==> LiveRoute(g.ws, r, a, s, true)
  {
    if LiveRoute(g.ws, r, a, s, true) {
      LiveRouteNodes(g.ws, r, a, s, true);
      forall n | n in Nodes(r) ensures Live(g'.ws, n) {
        assert Carries(g.ws, n, a, s);
        assert Selection.SelectedIn(g.ws[n], g'.ws[n], assocs);
      }
      forall n, i | (n, i) in Hops(r) ensures 0 <= n < |g'.ws| && Enabled(g'.ws[n], i) {
        HopFacts(g.ws, r, a, s, true, n, i);
        assert Selection.SelectedIn(g.ws[n], g'.ws[n], assocs);
      }
      RouteKept(g, g', r, a, s, true);
      SelectedIsLive(g'.ws, r, a, s);
    }
    if LiveRoute(g'.ws, r, a, s, sel) && (sel || SelectionsMade(g.ws, a)) {
      if !sel {
        HopsSelected(g, g', assocs, r, a, s);
      }
      PrunedRoute(g, g', r, a, s, true);
    }
  }

  lemma {:induction false} SelectedIsLive(ws: seq<Widget>, r: Route, a: int, s: int)
    requires LiveRoute(ws, r, a, s, true)
    ensures LiveRoute(ws, r, a, s, false)
  {
    match r
    case Dac(_) =>
    case Via(_, _, rest) => SelectedIsLive(ws, rest, a, s);
  }

  /** Connections between widgets that carry a common pin are cut only at
      recording mixers, and there only those from a monitor. */
  lemma SharedEdgeKept(startNode: nat, g: Config, g': Config, assocs: seq<Assoc>, n: int, i: int, a: nat, s: int)
    requires ConfigOk(startNode, g) && Selection.Bindings(g.ws, assocs) && Selection.Crossed(startNode, g, g', assocs)
    requires Carries(g.ws, n, a, s) && Enabled(g.ws[n], i) && Carries(g.ws, g.ws[n].conns[i], a, s)
    ensures Enabled(g'.ws[n], i) <==>
              !(g.ws[n].kind == Mixer && |g.ws[n].conns| > 1 && g.ws[g.ws[n].conns[i]].monitor && assocs[a].dir == In)
  {
    var c := g.ws[n].conns[i];
    assert Selection.SharesPin(g.ws[n], g.ws[c]);
    forall k | 0 <= k < |g.cs| && g.cs[k].widget == n && g.cs[k].index == i
      ensures ControlOk(g.ws, g.cs[k]) && !Selection.ControlCrosses(g.ws, assocs, g.cs[k])
    {
      assert ControlOk(g.ws, g.cs[k]);
    }
    assert !Selection.ControlCut(g.ws, g.cs, assocs, n, i, |g.cs|);
    assert PrunedWidget(g.ws[n], g'.ws[n]);
  }

  lemma RouteThroughCross(startNode: nat, g: Config, g': Config, assocs: seq<Assoc>, r: Route, a: nat, s: int,
                          sel: bool)
    requires ConfigOk(startNode, g) && Selection.Bindings(g.ws, assocs)
    requires a < |assocs| && assocs[a].dir == Out
    requires Pruned(g, g') && Selection.Crossed(startNode, g, g', assocs)
    ensures LiveRoute(g'.ws, r, a, s, sel) <==> LiveRoute(g.ws, r, a, s, sel)
  {
    if LiveRoute(g.ws, r, a, s, sel) {
      LiveRouteNodes(g.ws, r, a, s, sel);
      forall n | n in Nodes(r) ensures Live(g'.ws, n) {
        assert Carries(g.ws, n, a, s);
      }
      forall n, i | (n, i) in Hops(r) ensures 0 <= n < |g'.ws| && Enabled(g'.ws[n], i) {
        HopFacts(g.ws, r, a, s, sel, n, i);
        SharedEdgeKept(startNode, g, g', assocs, n, i, a, s);
      }
      RouteKept(g, g', r, a, s, sel);
    } else if LiveRoute(g'.ws, r, a, s, sel) {
      PrunedRoute(g, g', r, a, s, sel);
    }
  }

  // ----- Recording walks -----

  lemma {:induction false} WalkAt(ws: seq<Widget>, p: seq<int>, a: int, s: int, k: nat)
    requires LiveWalk(ws, p, a, s) && k < |p|
    ensures Carries(ws, p[k], a, s)
    ensures k > 0 ==> ws[p[k]].kind != PinComplex && Consumer(ws, p[k - 1], p[k])
    ensures k == |p| - 1 ==> ws[p[k]].kind == AudioInput
    decreases |p|
  {
    if k > 0 {
      WalkAt(ws, p[1..], a, s, k - 1);
    }
  }

  /** Pruning makes no walk live. */
  lemma {:induction false} PrunedWalk(g: Config, g': Config, p: seq<int>, a: int, s: int)
    requires Pruned(g, g') && LiveWalk(g'.ws, p, a, s)
    ensures LiveWalk(g.ws, p, a, s)
    decreases |p|
  {
    assert PrunedWidget(g.ws[p[0]], g'.ws[p[0]]);
    if |p| > 1 {
      PrunedWalk(g, g', p[1..], a, s);
      var i :| Enabled(g'.ws[p[1]], i) && g'.ws[p[1]].conns[i] == p[0];
      assert PrunedWidget(g.ws[p[1]], g'.ws[p[1]]);
      assert Enabled(g.ws[p[1]], i);
    }
  }

  lemma WalkSustained(g: Config, p: seq<int>, a: int, s: int)
    requires LiveWalk(g.ws, p, a, s)
    requires g.ws[p[0]].kind == PinComplex && !UselessPin(g.ws[p[0]])
    ensures Sustained(g, set x | x in p)
  {
    var ns := set x | x in p;
    forall n | n in ns
      ensures Live(g.ws, n) && !UselessPin(g.ws[n])
      ensures Routes(g.ws[n]) ==>
            && (exists i :: Enabled(g.ws[n], i) && g.ws[n].conns[i] in ns)
            && (exists k, i :: k in ns && Live(g.ws, k) && Enabled(g.ws[k], i) && g.ws[k].conns[i] == n)
    {
      var j :| 0 <= j < |p| && p[j] == n;
      WalkAt(g.ws, p, a, s, j);
      if Routes(g.ws[n]) {
        assert p[j - 1] in ns && p[j + 1] in ns;
        WalkAt(g.ws, p, a, s, j + 1);
        assert Consumer(g.ws, p[j], p[j + 1]);
      }
    }
  }

  lemma {:induction false} WalkKept(g: Config, g': Config, p: seq<int>, a: int, s: int, ns: set<int>)
    requires Pruned(g, g') && LiveWalk(g.ws, p, a, s) && forall x :: x in p ==> x in ns
    requires forall n :: n in ns ==> Live(g'.ws, n)
    requires forall n, i :: n in ns && Live(g.ws, n) && Enabled(g.ws[n], i) && g.ws[n].conns[i] in ns ==>
              Enabled(g'.ws[n], i)
    ensures LiveWalk(g'.ws, p, a, s)
    decreases |p|
  {
    assert PrunedWidget(g.ws[p[0]], g'.ws[p[0]]);
    if |p| > 1 {
      WalkKept(g, g', p[1..], a, s, ns);
      var i :| Enabled(g.ws[p[1]], i) && g.ws[p[1]].conns[i] == p[0];
      assert PrunedWidget(g.ws[p[1]], g'.ws[p[1]]);
      assert p[1] in p && Enabled(g'.ws[p[1]], i);
    }
  }

  lemma WalkThroughUseless(g: Config, g': Config, p: seq<int>, a: int, s: int)
    requires LiveWalk(g.ws, p, a, s)
    requires g.ws[p[0]].kind == PinComplex && !UselessPin(g.ws[p[0]])
    requires Pruned(g, g') && Greatest(g, g')
    ensures LiveWalk(g'.ws, p, a, s)
  {
    WalkSustained(g, p, a, s);
    SustainedStays(g, g', set x | x in p);
    WalkKept(g, g', p, a, s, set x | x in p);
  }

  lemma {:induction false} WalkThroughUnassociated(g: Config, g': Config, assocs: seq<Assoc>, p: seq<int>, a: nat,
                                                   s: int)
    requires LiveWalk(g.ws, p, a, s) && a < |assocs| && assocs[a].dir == In
    requires Pruned(g, g') && CutUpTo(Associated(g).ws, g'.ws, assocs, |g.ws|)
    ensures LiveWalk(g'.ws, p, a, s)
    decreases |p|
  {
    var ws1 := Associated(g).ws;
    assert PrunedWidget(g.ws[p[0]], g'.ws[p[0]]) && ws1[p[0]].enable;
    if |p| > 1 {
      WalkThroughUnassociated(g, g', assocs, p[1..], a, s);
      var i :| Enabled(g.ws[p[1]], i) && g.ws[p[1]].conns[i] == p[0];
      assert Enabled(ws1[p[1]], i) && !Cut(ws1, assocs, p[1], i, |g.ws|);
      assert Enabled(g'.ws[p[1]], i);
    }
  }

  lemma {:induction false} WalkThroughNonSelected(g: Config, g': Config, assocs: seq<Assoc>, p: seq<int>, a: nat,
                                                  s: int)
    requires LiveWalk(g.ws, p, a, s) && a < |assocs| && assocs[a].dir == In && Pruned(g, g')
    requires forall n :: 0 <= n < |g.ws| ==> Selection.SelectedIn(g.ws[n], g'.ws[n], assocs)
    ensures LiveWalk(g'.ws, p, a, s)
    decreases |p|
  {
    assert Selection.SelectedIn(g.ws[p[0]], g'.ws[p[0]], assocs);
    if |p| > 1 {
      WalkThroughNonSelected(g, g', assocs, p[1..], a, s);
      var i :| Enabled(g.ws[p[1]], i) && g.ws[p[1]].conns[i] == p[0];
      assert Selection.SelectedIn(g.ws[p[1]], g'.ws[p[1]], assocs);
      assert Enabled(g'.ws[p[1]], i);
    }
  }

  /** Nowhere does the walk run from an input monitor into a mixer of several
      inputs. */
  predicate Unmonitored(ws: seq<Widget>, p: seq<int>)
  {
    |p| <= 1 ||
    (&& 0 <= p[0] < |ws| && 0 <= p[1] < |ws|
     && !(ws[p[1]].kind == Mixer && |ws[p[1]].conns| > 1 && ws[p[0]].monitor)
     && Unmonitored(ws, p[1..]))
  }

  lemma {:induction false} PrunedUnmonitored(g: Config, g': Config, p: seq<int>)
    requires Pruned(g, g')
    ensures Unmonitored(g'.ws, p) == Unmonitored(g.ws, p)
    decreases |p|
  {
    if |p| > 1 && 0 <= p[0] < |g.ws| && 0 <= p[1] < |g.ws| {
      assert PrunedWidget(g.ws[p[0]], g'.ws[p[0]]) && PrunedWidget(g.ws[p[1]], g'.ws[p[1]]);
      PrunedUnmonitored(g, g', p[1..]);
    }
  }

  lemma {:induction false} WalkThroughCross(startNode: nat, g: Config, g': Config, assocs: seq<Assoc>, p: seq<int>,
                                            a: nat, s: int)
    requires ConfigOk(startNode, g) && Selection.Bindings(g.ws, assocs)
    requires LiveWalk(g.ws, p, a, s) && a < |assocs| && assocs[a].dir == In
    requires Pruned(g, g') && Selection.Crossed(startNode, g, g', assocs)
    ensures LiveWalk(g'.ws, p, a, s) <==> Unmonitored(g.ws, p)
    decreases |p|
  {
    assert PrunedWidget(g.ws[p[0]], g'.ws[p[0]]);
    if |p| > 1 {
      WalkThroughCross(startNode, g, g', assocs, p[1..], a, s);
      assert p[1..][0] == p[1];
      forall i | Enabled(g.ws[p[1]], i) && g.ws[p[1]].conns[i] == p[0]
        ensures Enabled(g'.ws[p[1]], i) <==>
                  !(g.ws[p[1]].kind == Mixer && |g.ws[p[1]].conns| > 1 && g.ws[p[0]].monitor)
      {
        SharedEdgeKept(startNode, g, g', assocs, p[1], i, a, s);
      }
      assert PrunedWidget(g.ws[p[1]], g'.ws[p[1]]);
      assert forall i :: Enabled(g'.ws[p[1]], i) ==> Enabled(g.ws[p[1]], i);
      var i :| Enabled(g.ws[p[1]], i) && g.ws[p[1]].conns[i] == p[0];
      assert Live(g'.ws, p[1]);
    }
  }

  // ----- A monitor on the only way of a pin -----

  /** w bound for pin 0 of association a. */
  function BoundFor(w: Widget, a: int, dir: Dir): Widget
  {
    w.(bindAssoc := a, bindSeqMask := {0}, traceDir := {dir})
  }

  function OnePin(dir: Dir, pin: int, dac: int): (asc: Assoc)
    ensures AssocOk(asc)
  {
    Assoc(true, 0, dir, 1, false, 0, -1, seq(PINS, s => if s == 0 then pin else 0),
          seq(PINS, s => if s == 0 then dac else 0), 0, 0, 0)
  }

  /** Pin 5 records by way of mixer 3 and mixer 2, which takes DAC 4 as well, with
      ADC 1; pin 6 plays DAC 4 and takes mixer 3 as well. */
  function MonitorTree(): seq<Widget>
  {
    [PlainWidget(VendorDefined, []).(enable := false),
     BoundFor(PlainWidget(AudioInput, [2]), 0, In),
     BoundFor(PlainWidget(Mixer, [3, 4]), 0, In),
     BoundFor(PlainWidget(Mixer, [5]), 0, In),
     BoundFor(PlainWidget(AudioOutput, []), 1, Out),
     BoundFor(PlainWidget(PinComplex, []), 0, In),
     BoundFor(PlainWidget(PinComplex, [4, 3]), 1, Out).(selconn := 0)]
  }

  lemma MonitorFound(ws: seq<Widget>, assocs: seq<Assoc>)
    requires ws == MonitorTree() && assocs == [OnePin(In, 5, 1), OnePin(Out, 6, 4)]
    ensures Live(ws, 3) && ws[3].kind == Mixer && BoundTo(ws[3], assocs, In) && ReachesOut(ws, assocs, 3, 0)
  {
    assert Enabled(ws[6], 1) && ws[6].conns[1] == 3;
    assert Consumer(ws, 3, 6) && ReachesOut(ws, assocs, 6, 1);
  }

  lemma WalkFrom(ws: seq<Widget>, n: int, p: seq<int>, a: int, s: int, i: int)
    requires LiveWalk(ws, p, a, s) && Carries(ws, n, a, s) && ws[p[0]].kind != PinComplex
    requires Enabled(ws[p[0]], i) && ws[p[0]].conns[i] == n
    ensures LiveWalk(ws, [n] + p, a, s)
  {
    assert ([n] + p)[1..] == p;
  }

  lemma MonitorJoined(ws: seq<Widget>, asc: Assoc)
    requires ws == MonitorTree() && asc == OnePin(In, 5, 1)
    ensures AllJoined(ws, asc, 0)
  {
    assert LiveWalk(ws, [1], 0, 0);
    WalkFrom(ws, 2, [1], 0, 0, 0);
    WalkFrom(ws, 3, [2] + [1], 0, 0, 0);
    WalkFrom(ws, 5, [3] + ([2] + [1]), 0, 0, 0);
    var p := [5] + ([3] + ([2] + [1]));
    assert LiveWalk(ws, p, 0, 0) && p[0] == 5 && p[|p| - 1] == 1;
  }

  lemma MonitorRouted(ws: seq<Widget>, asc: Assoc)
    requires ws == MonitorTree() && asc == OnePin(Out, 6, 4)
    ensures AllRouted(ws, asc, 1, 0, true)
  {
    assert LiveRoute(ws, Dac(4), 1, 0, true);
    var r := Via(6, 0, Dac(4));
    assert LiveRoute(ws, r, 1, 0, true) && Source(r) == 6 && Target(r) == 4;
    assert PinRouted(ws, asc, 1, 0, true);
  }

  /** The tree with mixer 3 a monitor, whatever else the extra trace does. */
  ghost predicate MonitorShape(ws: seq<Widget>)
  {
    && |ws| == 7 && !ws[0].enable && ws[3].monitor && ws[6].bindAssoc == 1
    && ws[2].kind == Mixer && ws[3].kind == Mixer && ws[5].kind == PinComplex
    && ws[1].conns == [2] && ws[2].conns == [3, 4] && ws[3].conns == [5]
    && ws[4].conns == [] && ws[5].conns == [] && ws[6].conns == [4, 3]
  }

  lemma ExtraShape(ws: seq<Widget>, assocs: seq<Assoc>, ws1: seq<Widget>)
    requires ws == MonitorTree() && assocs == [OnePin(In, 5, 1), OnePin(Out, 6, 4)]
    requires ExtraTraced(1, ws, ws1, assocs)
    ensures MonitorShape(ws1)
  {
    MonitorFound(ws, assocs);
    TappedStays(ws[1], ws1[1]);
    TappedStays(ws[2], ws1[2]);
    TappedStays(ws[3], ws1[3]);
    TappedStays(ws[4], ws1[4]);
    TappedStays(ws[5], ws1[5]);
    TappedStays(ws[6], ws1[6]);
    assert TappedAt(ws[0], ws1[0]);
  }

  /** The extra trace leaves kind and connections, and a binding to the table. */
  lemma TappedStays(w: Widget, w': Widget)
    requires TappedAt(w, w')
    ensures w'.kind == w.kind && w'.conns == w.conns
    ensures w.bindAssoc >= 0 && w.kind != BeepGenerator ==> w'.bindAssoc == w.bindAssoc
  {
  }

  /** Every walk of pin 5 runs from the monitor into mixer 2. */
  lemma MonitorOnEveryWalk(ws: seq<Widget>, p: seq<int>)
    requires MonitorShape(ws) && LiveWalk(ws, p, 0, 0) && p[0] == 5
    ensures !Unmonitored(ws, p)
  {
    assert LiveWalk(ws, p[1..], 0, 0) && p[1] == 3 by {
      assert Consumer(ws, 5, p[1]);
    }
    var q := p[1..];
    assert q[0] == 3 && LiveWalk(ws, q[1..], 0, 0) && Carries(ws, q[1..][0], 0, 0);
    assert q[1] == 2 by {
      assert Consumer(ws, 3, q[1]);
    }
  }

  /** g is ws after the extra trace, g' is g after the pass. */
  ghost predicate ExtraAndCross(ws: seq<Widget>, g: Config, g': Config, assocs: seq<Assoc>)
  {
    && ExtraTraced(1, ws, g.ws, assocs) && ConfigOk(1, g) && Selection.Bindings(g.ws, assocs)
    && Pruned(g, g') && Selection.Crossed(1, g, g', assocs)
  }

  /** The pin has a walk in the tree and none after the passes: the extra trace
      makes mixer 3 a monitor, and audioDisableCrossAssociations cuts it from
      mixer 2. */
  lemma MonitorCutsPin() returns (ws: seq<Widget>, assocs: seq<Assoc>)
    ensures |assocs| == 2 && AssocOk(assocs[0]) && AssocOk(assocs[1]) && assocs[0].pins[0] == 5
    ensures AllJoined(ws, assocs[0], 0) && AllRouted(ws, assocs[1], 1, 0, true)
    ensures forall g, g', p :: ExtraAndCross(ws, g, g', assocs) && |p| > 0 && p[0] == 5 ==> !LiveWalk(g'.ws, p, 0, 0)
  {
    ws, assocs := MonitorTree(), [OnePin(In, 5, 1), OnePin(Out, 6, 4)];
    MonitorJoined(ws, assocs[0]);
    MonitorRouted(ws, assocs[1]);
    forall g, g', p | ExtraAndCross(ws, g, g', assocs) && |p| > 0 && p[0] == 5
      ensures !LiveWalk(g'.ws, p, 0, 0)
    {
      if LiveWalk(g'.ws, p, 0, 0) {
        PrunedWalk(g, g', p, 0, 0);
        WalkThroughCross(1, g, g', assocs, p, 0, 0);
        ExtraShape(ws, assocs, g.ws);
        MonitorOnEveryWalk(g.ws, p);
      }
    }
  }
}
