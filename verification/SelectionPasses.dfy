/** The pruning passes that follow the selections and bindings of the traced
    tree: audioDisableNonSelected and audioDisableCrossAssociations. */
module SelectionPasses {
  import opened HdaGraph
  import opened Configuration

  // ----- Rewriting the connections of one widget -----

  function Rewired(g: Config, n: int, w: Widget): Config
    requires 0 <= n < |g.ws|
  {
    g.(ws := g.ws[n := w])
  }

  lemma RewiredPruned(startNode: nat, g0: Config, g: Config, n: int, w: Widget)
    requires ConfigOk(startNode, g) && Pruned(g0, g) && startNode <= n < |g.ws|
    requires WidgetOk(w) && PrunedWidget(g.ws[n], w)
    ensures ConfigOk(startNode, Rewired(g, n, w)) && Pruned(g, Rewired(g, n, w)) && Pruned(g0, Rewired(g, n, w))
  {
    var g1 := Rewired(g, n, w);
    assert forall m :: 0 <= m < |g.ws| ==> g1.ws[m].conns == g.ws[m].conns;
    assert Pruned(g, g1);
    PrunedTwice(g0, g, g1);
  }

  lemma {:induction false} CountTrueNext(bs: seq<bool>, j: nat, next: nat)
    requires j < |bs| && next == j + 1
    ensures CountTrue(bs[..next]) == CountTrue(bs[..j]) + if bs[j] then 1 else 0
    decreases |bs|
  {
    if j > 0 {
      assert bs[..next][1..] == bs[1..][..j] && bs[..j][1..] == bs[1..][..j - 1];
      CountTrueNext(bs[1..], j - 1, j);
    }
  }

  method CountEnabled(connsenable: seq<bool>) returns (k: nat)
    ensures k == CountTrue(connsenable)
  {
    k := 0;
    var j := 0;
    while j < |connsenable|
      invariant 0 <= j <= |connsenable|
      invariant k == CountTrue(connsenable[..j])
    {
      ghost var j0 := j;
      if connsenable[j] {
        k := k + 1;
      }
      j := j + 1;
      CountTrueNext(connsenable, j0, j);
    }
    assert connsenable[..j] == connsenable;
  }

  // ----- audioDisableNonSelected -----

  /** A widget of a playback path that selects one of several inputs. */
  predicate Choosing(w: Widget, assocs: seq<Assoc>)
  {
    && w.enable && |w.conns| > 1 && w.kind != Mixer
    && 0 <= w.bindAssoc < |assocs| && assocs[w.bindAssoc].dir == Out
  }

  /** Connection k stays when its widget is no selecting one or selects it. */
  predicate KeptSelected(w: Widget, assocs: seq<Assoc>, k: int)
  {
    Choosing(w, assocs) && w.selconn >= 0 ==> w.selconn == k
  }

  predicate SelectedIn(w: Widget, w': Widget, assocs: seq<Assoc>)
  {
    && PrunedWidget(w, w') && w'.enable == w.enable
    && forall k :: 0 <= k < |w.connsenable| ==> (w'.connsenable[k] <==> w.connsenable[k] && KeptSelected(w, assocs, k))
  }

  method DropUnselected(w: Widget, ghost assocs: seq<Assoc>) returns (w': Widget)
    requires WidgetOk(w) && Choosing(w, assocs)
    ensures WidgetOk(w') && SelectedIn(w, w', assocs)
  {
    w' := w;
    var j, k := 0, 0;
    while j < |w.conns|
      invariant 0 <= j <= |w.conns| == |w'.connsenable|
      invariant w' == w.(connsenable := w'.connsenable)
      invariant forall m :: 0 <= m < j ==> (w'.connsenable[m] <==> w.connsenable[m] && KeptSelected(w, assocs, m))
      invariant forall m :: j <= m < |w.conns| ==> w'.connsenable[m] == w.connsenable[m]
      invariant k == CountTrue(w'.connsenable[..j])
    {
      ghost var before, j0 := w'.connsenable, j;
      if w'.connsenable[j] {
        k := k + 1;
        if !(w.selconn < 0 || w.selconn == j) {
          w' := w'.(connsenable := w'.connsenable[j := false]);
          k := k - 1;
        }
      }
      assert w'.connsenable[..j0] == before[..j0];
      j := j + 1;
      CountTrueNext(w'.connsenable, j0, j);
    }
    assert w'.connsenable[..j] == w'.connsenable;
    w' := w'.(connsenabled := k);
  }

  method AudioDisableNonSelected(fg: FunctionGroup)
    requires ConfigOk(fg.startNode, ConfigOf(fg))
    requires forall n :: 0 <= n < fg.widgets.Length ==> fg.widgets[n].bindAssoc < fg.assocs.Length
    modifies fg.widgets
    ensures ConfigOk(fg.startNode, ConfigOf(fg)) && Pruned(old(ConfigOf(fg)), ConfigOf(fg))
    ensures forall n :: 0 <= n < fg.widgets.Length ==> SelectedIn(old(fg.widgets[n]), fg.widgets[n], fg.assocs[..])
    ensures forall n, k :: 0 <= n < fg.widgets.Length && 0 <= k < |fg.widgets[n].connsenable| ==>
              (fg.widgets[n].connsenable[k] <==>
                 && old(fg.widgets[n]).connsenable[k]
                 && !(old(fg.widgets[n]).enable && |fg.widgets[n].conns| > 1 && fg.widgets[n].kind != Mixer
                      && 0 <= fg.widgets[n].bindAssoc && fg.assocs[fg.widgets[n].bindAssoc].dir == Out
                      && fg.widgets[n].selconn >= 0 && fg.widgets[n].selconn != k))
  {
    ghost var g0, assocs := ConfigOf(fg), fg.assocs[..];
    var i := fg.startNode;
    while i < fg.widgets.Length
      invariant fg.startNode <= i <= fg.widgets.Length
      invariant ConfigOk(fg.startNode, ConfigOf(fg)) && Pruned(g0, ConfigOf(fg))
      invariant forall n :: 0 <= n < i ==> SelectedIn(g0.ws[n], fg.widgets[n], assocs)
      invariant forall n :: i <= n < fg.widgets.Length ==> fg.widgets[n] == g0.ws[n]
    {
      var w := fg.widgets[i];
      if w.enable && |w.conns| > 1 && w.kind != Mixer && !(w.bindAssoc < 0 || fg.assocs[w.bindAssoc].dir == In) {
        ghost var g := ConfigOf(fg);
        var w' := DropUnselected(w, assocs);
        RewiredPruned(fg.startNode, g0, g, i, w');
        fg.widgets[i] := w';
        assert ConfigOf(fg) == Rewired(g, i, w');
      }
      i := i + 1;
    }
  }

  // ----- isFirstPin -----

  predicate LowestBit(mask: set<int>, q: int)
  {
    q in mask && forall b :: 0 <= b < q ==> b !in mask
  }

  predicate LowestPin(a: Assoc, q: int)
    requires AssocOk(a)
  {
    0 <= q < PINS && a.pins[q] > 0 && forall j :: 0 <= j < q ==> a.pins[j] <= 0
  }

  /** The mask holds the redirection pin, or its lowest bit is the lowest pin. */
  ghost predicate HoldsFirstPin(mask: set<int>, a: Assoc)
    requires AssocOk(a)
  {
    (a.hpredir >= 0 && a.hpredir in mask) || exists q :: LowestBit(mask, q) && LowestPin(a, q)
  }

  /** The lowest of the sixteen bits that is set, 16 for none. */
  method LowestSet(mask: set<int>) returns (q: nat)
    ensures q <= PINS && (q < PINS ==> q in mask) && forall b :: 0 <= b < q ==> b !in mask
  {
    q := 0;
    while q < PINS && q !in mask
      invariant q <= PINS && forall b :: 0 <= b < q ==> b !in mask
    {
      q := q + 1;
    }
  }

  method IsFirstPin(mask: set<int>, a: Assoc) returns (first: bool)
    requires AssocOk(a)
    ensures first <==> HoldsFirstPin(mask, a)
  {
    if a.hpredir >= 0 && a.hpredir in mask {
      return true;
    }
    var q := LowestSet(mask);
    if q == PINS || a.pins[q] <= 0 {
      return false;
    }
    var j := 0;
    while j < q
      invariant 0 <= j <= q && forall m :: 0 <= m < j ==> a.pins[m] <= 0
    {
      if a.pins[j] > 0 {
        return false;
      }
      j := j + 1;
    }
    assert LowestBit(mask, q) && LowestPin(a, q);
    return true;
  }

  // ----- audioDisableCrossAssociations -----

  /** Every bound widget's association exists. */
  ghost predicate Bindings(ws: seq<Widget>, assocs: seq<Assoc>)
  {
    && (forall n :: 0 <= n < |ws| ==> ws[n].bindAssoc < |assocs|)
    && (forall a :: 0 <= a < |assocs| ==> AssocOk(assocs[a]))
  }

  predicate BoundDir(w: Widget, assocs: seq<Assoc>, dir: Dir)
  {
    0 <= w.bindAssoc < |assocs| && assocs[w.bindAssoc].dir == dir
  }

  /** A mixer does not hear the input monitor when it records, nor, beyond the
      first pin, when it plays for another association. */
  ghost predicate MixerCut(w: Widget, child: Widget, assocs: seq<Assoc>)
    requires forall a :: 0 <= a < |assocs| ==> AssocOk(assocs[a])
  {
    && child.monitor
    && (BoundDir(w, assocs, In)
        || (BoundDir(w, assocs, Out) && w.bindAssoc != child.bindAssoc
            && !HoldsFirstPin(w.bindSeqMask, assocs[w.bindAssoc])))
  }

  predicate SharesPin(w: Widget, child: Widget)
  {
    w.bindAssoc == child.bindAssoc && exists b :: b in w.bindSeqMask && b in child.bindSeqMask
  }

  /** The widgets do not serve a common pin, and neither is of a pseudo
      association or a monitor of what is recorded. */
  predicate Crosses(w: Widget, child: Widget, assocs: seq<Assoc>)
  {
    && w.bindAssoc != -2 && child.bindAssoc != -2 && !(w.monitor && BoundDir(child, assocs, In))
    && !SharesPin(w, child)
  }

  /** Connection k of widget n is cut by the first loop. */
  ghost predicate EdgeCut(ws: seq<Widget>, assocs: seq<Assoc>, n: int, k: int)
    requires Bindings(ws, assocs) && 0 <= n < |ws| && 0 <= k < |ws[n].conns|
  {
    && ws[n].enable && |ws[n].conns| > 1 && Live(ws, ws[n].conns[k])
    && if ws[n].kind == Mixer then MixerCut(ws[n], ws[ws[n].conns[k]], assocs)
       else Crosses(ws[n], ws[ws[n].conns[k]], assocs)
  }

  /** Connection k of widget n as the loop over connections leaves it, when the
      connections below j have been looked at. */
  ghost predicate EdgesCut(ws: seq<Widget>, assocs: seq<Assoc>, n: int, w: Widget, j: int)
    requires Bindings(ws, assocs) && 0 <= n < |ws| && |ws[n].conns| == |ws[n].connsenable|
  {
    && |w.connsenable| == |ws[n].connsenable|
    && forall k :: 0 <= k < |ws[n].conns| ==>
         (w.connsenable[k] <==> ws[n].connsenable[k] && !(k < j && EdgeCut(ws, assocs, n, k)))
  }

  method CutMixerEdge(w: Widget, child: Widget, assocs: seq<Assoc>) returns (cut: bool)
    requires forall a :: 0 <= a < |assocs| ==> AssocOk(assocs[a])
    requires w.bindAssoc < |assocs|
    ensures cut <==> MixerCut(w, child, assocs)
  {
    if child.monitor && w.bindAssoc >= 0 && assocs[w.bindAssoc].dir == In {
      return true;
    }
    if child.monitor && w.bindAssoc >= 0 && assocs[w.bindAssoc].dir == Out && w.bindAssoc != child.bindAssoc {
      var first := IsFirstPin(w.bindSeqMask, assocs[w.bindAssoc]);
      return !first;
    }
    return false;
  }

  method CrossMixer(fg: FunctionGroup, i: nat) returns (w: Widget)
    requires ConfigOk(fg.startNode, ConfigOf(fg)) && Bindings(fg.widgets[..], fg.assocs[..])
    requires fg.startNode <= i < fg.widgets.Length
    requires fg.widgets[i].enable && |fg.widgets[i].conns| > 1 && fg.widgets[i].kind == Mixer
    ensures WidgetOk(w) && PrunedWidget(fg.widgets[i], w) && w.enable
    ensures EdgesCut(fg.widgets[..], fg.assocs[..], i, w, |w.conns|)
  {
    ghost var ws := fg.widgets[..];
    var assocs := fg.assocs[..];
    w := fg.widgets[i];
    var j := 0;
    while j < |w.conns|
      invariant 0 <= j <= |w.conns|
      invariant WidgetOk(w) && w.enable && w == ws[i].(connsenable := w.connsenable, connsenabled := w.connsenabled)
      invariant EdgesCut(ws, assocs, i, w, j)
    {
      if w.connsenable[j] {
        var c := w.conns[j];
        if fg.startNode <= c < fg.widgets.Length && fg.widgets[c].enable {
          var cut := CutMixerEdge(fg.widgets[i], fg.widgets[c], assocs);
          if cut {
            CountTrueClear(w.connsenable, j);
            w := w.(connsenable := w.connsenable[j := false], connsenabled := w.connsenabled - 1);
          }
        }
      }
      j := j + 1;
    }
  }

  method CrossOther(fg: FunctionGroup, i: nat) returns (w: Widget)
    requires ConfigOk(fg.startNode, ConfigOf(fg)) && Bindings(fg.widgets[..], fg.assocs[..])
    requires fg.startNode <= i < fg.widgets.Length
    requires fg.widgets[i].enable && |fg.widgets[i].conns| > 1 && fg.widgets[i].kind != Mixer
    requires fg.widgets[i].bindAssoc != -2
    ensures WidgetOk(w) && PrunedWidget(fg.widgets[i], w) && w.enable
    ensures EdgesCut(fg.widgets[..], fg.assocs[..], i, w, |w.conns|)
  {
    ghost var ws := fg.widgets[..];
    w := fg.widgets[i];
    var j := 0;
    while j < |w.conns|
      invariant 0 <= j <= |w.conns|
      invariant w == ws[i].(connsenable := w.connsenable)
      invariant EdgesCut(ws, fg.assocs[..], i, w, j)
    {
      var c := w.conns[j];
      if w.connsenable[j] && fg.startNode <= c < fg.widgets.Length && fg.widgets[c].enable {
        var child := fg.widgets[c];
        if !(child.bindAssoc == -2
             || (w.monitor && child.bindAssoc >= 0 && fg.assocs[child.bindAssoc].dir == In))
           && !(w.bindAssoc == child.bindAssoc && exists b :: b in w.bindSeqMask && b in child.bindSeqMask) {
          w := w.(connsenable := w.connsenable[j := false]);
        }
      }
      j := j + 1;
    }
    var k := CountEnabled(w.connsenable);
    w := w.(connsenabled := k);
  }

  /** ws' differs from ws only in which connections are enabled. */
  ghost predicate Rewirings(ws: seq<Widget>, ws': seq<Widget>)
  {
    && |ws'| == |ws|
    && forall n :: 0 <= n < |ws| ==> PrunedWidget(ws[n], ws'[n]) && ws'[n].enable == ws[n].enable
  }

  lemma EdgeCutStays(ws: seq<Widget>, ws': seq<Widget>, assocs: seq<Assoc>, n: int, k: int)
    requires Bindings(ws, assocs) && Rewirings(ws, ws') && Bindings(ws', assocs)
    requires 0 <= n < |ws| && 0 <= k < |ws[n].conns|
    ensures EdgeCut(ws', assocs, n, k) == EdgeCut(ws, assocs, n, k)
  {
    var c := ws[n].conns[k];
    assert PrunedWidget(ws[n], ws'[n]);
    if Live(ws, c) {
      assert PrunedWidget(ws[c], ws'[c]);
    }
  }

  /** The widgets below i are done. */
  ghost predicate WidgetsCrossed(ws: seq<Widget>, ws': seq<Widget>, assocs: seq<Assoc>, i: nat)
    requires Bindings(ws, assocs)
  {
    && Rewirings(ws, ws')
    && (forall n :: 0 <= n < i && n < |ws| ==> WidgetOk(ws[n]) && EdgesCut(ws, assocs, n, ws'[n], |ws[n].conns|))
    && (forall n :: i <= n < |ws| ==> ws'[n] == ws[n])
  }

  lemma WidgetCrossed(ws: seq<Widget>, ws1: seq<Widget>, assocs: seq<Assoc>, i: nat, w: Widget, next: nat)
    requires Bindings(ws, assocs) && (forall n :: 0 <= n < |ws| ==> WidgetOk(ws[n]))
    requires WidgetsCrossed(ws, ws1, assocs, i) && i < |ws| && next == i + 1
    requires Bindings(ws1, assocs) && PrunedWidget(ws1[i], w) && w.enable == ws1[i].enable
    requires WidgetOk(ws1[i]) && EdgesCut(ws1, assocs, i, w, |w.conns|)
    ensures WidgetsCrossed(ws, ws1[i := w], assocs, next)
  {
    forall k | 0 <= k < |ws[i].conns|
      ensures EdgeCut(ws1, assocs, i, k) == EdgeCut(ws, assocs, i, k)
    {
      EdgeCutStays(ws, ws1, assocs, i, k);
    }
  }

  lemma NothingCut(ws: seq<Widget>, assocs: seq<Assoc>, n: nat)
    requires Bindings(ws, assocs) && n < |ws| && WidgetOk(ws[n])
    requires !ws[n].enable || |ws[n].conns| <= 1 || (ws[n].kind != Mixer && ws[n].bindAssoc == -2)
    ensures EdgesCut(ws, assocs, n, ws[n], |ws[n].conns|)
  {
  }

  lemma RewiringsBound(ws: seq<Widget>, ws': seq<Widget>, assocs: seq<Assoc>)
    requires Bindings(ws, assocs) && Rewirings(ws, ws')
    ensures Bindings(ws', assocs)
  {
    forall n | 0 <= n < |ws| ensures ws'[n].bindAssoc < |assocs| {
      assert PrunedWidget(ws[n], ws'[n]);
    }
  }

  method CrossWidget(fg: FunctionGroup, i: nat) returns (w: Widget)
    requires ConfigOk(fg.startNode, ConfigOf(fg)) && Bindings(fg.widgets[..], fg.assocs[..])
    requires fg.startNode <= i < fg.widgets.Length
    ensures WidgetOk(w) && PrunedWidget(fg.widgets[i], w) && w.enable == fg.widgets[i].enable
    ensures EdgesCut(fg.widgets[..], fg.assocs[..], i, w, |w.conns|)
  {
    w := fg.widgets[i];
    if !w.enable || |w.conns| <= 1 || (w.kind != Mixer && w.bindAssoc == -2) {
      NothingCut(fg.widgets[..], fg.assocs[..], i);
    } else if w.kind == Mixer {
      w := CrossMixer(fg, i);
    } else {
      w := CrossOther(fg, i);
    }
  }

  method CrossWidgets(fg: FunctionGroup)
    requires ConfigOk(fg.startNode, ConfigOf(fg)) && Bindings(fg.widgets[..], fg.assocs[..])
    modifies fg.widgets
    ensures ConfigOk(fg.startNode, ConfigOf(fg)) && Pruned(old(ConfigOf(fg)), ConfigOf(fg))
    ensures WidgetsCrossed(old(fg.widgets[..]), fg.widgets[..], fg.assocs[..], fg.widgets.Length)
  {
    ghost var g0, assocs := ConfigOf(fg), fg.assocs[..];
    var i := fg.startNode;
    forall n | 0 <= n < i ensures EdgesCut(g0.ws, assocs, n, g0.ws[n], |g0.ws[n].conns|) {
      NothingCut(g0.ws, assocs, n);
    }
    while i < fg.widgets.Length
      invariant fg.startNode <= i <= fg.widgets.Length
      invariant ConfigOk(fg.startNode, ConfigOf(fg)) && Pruned(g0, ConfigOf(fg))
      invariant WidgetsCrossed(g0.ws, fg.widgets[..], assocs, i)
    {
      ghost var g, i0 := ConfigOf(fg), i;
      RewiringsBound(g0.ws, g.ws, assocs);
      var w := CrossWidget(fg, i);
      RewiredPruned(fg.startNode, g0, g, i, w);
      fg.widgets[i] := w;
      assert ConfigOf(fg) == Rewired(g, i, w);
      i := i + 1;
      WidgetCrossed(g0.ws, g.ws, assocs, i0, w, i);
    }
  }

  // ... using controls

  /** A control that amplifies what crosses between associations. */
  predicate ControlCrosses(ws: seq<Widget>, assocs: seq<Assoc>, c: Control)
    requires ControlOk(ws, c)
  {
    c.enable && c.child != -1 && Crosses(ws[c.widget], ws[c.child], assocs)
  }

  /** A crossing control below i amplifies connection k of widget n. */
  ghost predicate ControlCut(ws: seq<Widget>, cs: seq<Control>, assocs: seq<Assoc>, n: int, k: int, i: int)
    requires forall c :: 0 <= c < |cs| ==> ControlOk(ws, cs[c])
  {
    exists c :: 0 <= c < i && c < |cs| && ControlCrosses(ws, assocs, cs[c]) && cs[c].widget == n && cs[c].index == k
  }

  /** The controls below i are done: the crossing ones are silent, and what
      they amplified is cut. */
  ghost predicate ControlsCrossed(startNode: nat, g: Config, g': Config, assocs: seq<Assoc>, i: int)
    requires ConfigOk(startNode, g)
  {
    && Rewirings(g.ws, g'.ws) && |g'.cs| == |g.cs|
    && (forall n, k :: 0 <= n < |g.ws| && 0 <= k < |g.ws[n].conns| ==>
          (g'.ws[n].connsenable[k] <==> g.ws[n].connsenable[k] && !ControlCut(g.ws, g.cs, assocs, n, k, i)))
    && (forall c :: 0 <= c < |g.cs| ==>
          g'.cs[c] == if c < i && ControlCrosses(g.ws, assocs, g.cs[c]) then Silenced(g.cs[c]) else g.cs[c])
  }

  lemma ControlKept(startNode: nat, g: Config, g1: Config, assocs: seq<Assoc>, i: nat, next: nat)
    requires ConfigOk(startNode, g) && ControlsCrossed(startNode, g, g1, assocs, i)
    requires i < |g.cs| && next == i + 1 && !ControlCrosses(g.ws, assocs, g.cs[i])
    ensures ControlsCrossed(startNode, g, g1, assocs, next)
  {
    forall n, k | 0 <= n < |g.ws| && 0 <= k < |g.ws[n].conns|
      ensures ControlCut(g.ws, g.cs, assocs, n, k, next) == ControlCut(g.ws, g.cs, assocs, n, k, i)
    {
    }
  }

  lemma ControlCrossed(startNode: nat, g: Config, g1: Config, g2: Config, assocs: seq<Assoc>, i: nat, next: nat)
    requires ConfigOk(startNode, g) && ControlsCrossed(startNode, g, g1, assocs, i)
    requires i < |g.cs| && next == i + 1 && ControlCrosses(g.ws, assocs, g.cs[i])
    requires g2.cs == g1.cs[i := Silenced(g1.cs[i])] && Rewirings(g1.ws, g2.ws)
    requires forall n, k :: 0 <= n < |g.ws| && 0 <= k < |g.ws[n].conns| ==>
               (g2.ws[n].connsenable[k] <==> g1.ws[n].connsenable[k] && !(g.cs[i].widget == n && g.cs[i].index == k))
    ensures ControlsCrossed(startNode, g, g2, assocs, next)
  {
    forall n | 0 <= n < |g.ws| ensures PrunedWidget(g.ws[n], g2.ws[n]) && g2.ws[n].enable == g.ws[n].enable {
      assert PrunedWidget(g.ws[n], g1.ws[n]) && PrunedWidget(g1.ws[n], g2.ws[n]);
    }
    forall n, k | 0 <= n < |g.ws| && 0 <= k < |g.ws[n].conns|
      ensures ControlCut(g.ws, g.cs, assocs, n, k, next) <==>
                ControlCut(g.ws, g.cs, assocs, n, k, i) || (g.cs[i].widget == n && g.cs[i].index == k)
    {
    }
  }

  /** Silences control i and cuts the connection it amplifies. */
  method SilenceAndCut(fg: FunctionGroup, i: nat, ghost g0: Config)
    requires ConfigOk(fg.startNode, ConfigOf(fg)) && Pruned(g0, ConfigOf(fg))
    requires i < fg.controls.Length && fg.controls[i].child != -1
    modifies fg.widgets, fg.controls
    ensures ConfigOk(fg.startNode, ConfigOf(fg)) && Pruned(g0, ConfigOf(fg))
    ensures fg.controls[..] == old(fg.controls[..])[i := Silenced(old(fg.controls[i]))]
    ensures Rewirings(old(fg.widgets[..]), fg.widgets[..])
    ensures forall n, k :: 0 <= n < fg.widgets.Length && 0 <= k < |fg.widgets[n].conns| ==>
              (fg.widgets[n].connsenable[k] <==>
                 old(fg.widgets[..])[n].connsenable[k] && !(fg.controls[i].widget == n && fg.controls[i].index == k))
  {
    ghost var g := ConfigOf(fg);
    var c := fg.controls[i];
    DropControlPruned(fg.startNode, g, i);
    PrunedTwice(g0, g, DropControl(g, i));
    fg.controls[i] := c.(forcemute := true, muted := (true, true), left := 0, right := 0, enable := false);
    ghost var g1 := ConfigOf(fg);
    assert g1 == DropControl(g, i);
    var w := fg.widgets[c.widget];
    if w.connsenable[c.index] {
      DropConnPruned(fg.startNode, g1, c.widget, c.index);
      PrunedTwice(g0, g1, DropConn(g1, c.widget, c.index));
      fg.widgets[c.widget] := w.(connsenable := w.connsenable[c.index := false], connsenabled := w.connsenabled - 1);
      assert ConfigOf(fg) == DropConn(g1, c.widget, c.index);
    }
  }

  method CrossControls(fg: FunctionGroup)
    requires ConfigOk(fg.startNode, ConfigOf(fg)) && Bindings(fg.widgets[..], fg.assocs[..])
    modifies fg.widgets, fg.controls
    ensures ConfigOk(fg.startNode, ConfigOf(fg)) && Pruned(old(ConfigOf(fg)), ConfigOf(fg))
    ensures ControlsCrossed(fg.startNode, old(ConfigOf(fg)), ConfigOf(fg), fg.assocs[..], fg.controls.Length)
  {
    ghost var g0, assocs := ConfigOf(fg), fg.assocs[..];
    var i := 0;
    while i < fg.controls.Length
      invariant 0 <= i <= fg.controls.Length
      invariant ConfigOk(fg.startNode, ConfigOf(fg)) && Pruned(g0, ConfigOf(fg))
      invariant ControlsCrossed(fg.startNode, g0, ConfigOf(fg), assocs, i)
    {
      ghost var g, i0 := ConfigOf(fg), i;
      RewiringsBound(g0.ws, g.ws, assocs);
      var crosses := CrossesAt(fg, i);
      CrossesStays(fg.startNode, g0, g, assocs, i);
      if crosses {
        SilenceAndCut(fg, i, g0);
        i := i + 1;
        ControlCrossed(fg.startNode, g0, g, ConfigOf(fg), assocs, i0, i);
      } else {
        i := i + 1;
        ControlKept(fg.startNode, g0, g, assocs, i0, i);
      }
    }
  }

  method CrossesAt(fg: FunctionGroup, i: nat) returns (crosses: bool)
    requires ConfigOk(fg.startNode, ConfigOf(fg)) && Bindings(fg.widgets[..], fg.assocs[..])
    requires i < fg.controls.Length
    ensures crosses <==> ControlCrosses(fg.widgets[..], fg.assocs[..], fg.controls[i])
  {
    var c := fg.controls[i];
    if !c.enable || c.child == -1 {
      return false;
    }
    var w, child := fg.widgets[c.widget], fg.widgets[c.child];
    if w.bindAssoc == -2 {
      return false;
    }
    if child.bindAssoc == -2 || (w.monitor && child.bindAssoc >= 0 && fg.assocs[child.bindAssoc].dir == In) {
      return false;
    }
    return w.bindAssoc != child.bindAssoc || !(exists b :: b in w.bindSeqMask && b in child.bindSeqMask);
  }

  lemma CrossesStays(startNode: nat, g: Config, g1: Config, assocs: seq<Assoc>, i: nat)
    requires ConfigOk(startNode, g) && ConfigOk(startNode, g1)
    requires ControlsCrossed(startNode, g, g1, assocs, i) && i < |g.cs|
    ensures ControlCrosses(g1.ws, assocs, g1.cs[i]) == ControlCrosses(g.ws, assocs, g.cs[i])
  {
    var c := g.cs[i];
    assert g1.cs[i] == c && ControlOk(g.ws, c);
    assert PrunedWidget(g.ws[c.widget], g1.ws[c.widget]);
    if c.child != -1 {
      assert PrunedWidget(g.ws[c.child], g1.ws[c.child]);
    }
  }

  /** What audioDisableCrossAssociations does, said of the state before it:
      which connections stay, which controls are silenced. */
  ghost predicate Crossed(startNode: nat, g: Config, g': Config, assocs: seq<Assoc>)
    requires ConfigOk(startNode, g) && Bindings(g.ws, assocs)
  {
    && Rewirings(g.ws, g'.ws) && |g'.cs| == |g.cs|
    && (forall n, k :: 0 <= n < |g.ws| && 0 <= k < |g.ws[n].conns| ==>
          (g'.ws[n].connsenable[k] <==>
             g.ws[n].connsenable[k] && !EdgeCut(g.ws, assocs, n, k) && !ControlCut(g.ws, g.cs, assocs, n, k, |g.cs|)))
    && (forall c :: 0 <= c < |g.cs| ==>
          g'.cs[c] == if ControlCrosses(g.ws, assocs, g.cs[c]) then Silenced(g.cs[c]) else g.cs[c])
  }

  lemma CrossedBoth(startNode: nat, g: Config, g1: Config, g': Config, assocs: seq<Assoc>)
    requires ConfigOk(startNode, g) && Bindings(g.ws, assocs) && ConfigOk(startNode, g1) && g1.cs == g.cs
    requires WidgetsCrossed(g.ws, g1.ws, assocs, |g.ws|)
    requires ControlsCrossed(startNode, g1, g', assocs, |g.cs|)
    ensures Crossed(startNode, g, g', assocs)
  {
    forall n | 0 <= n < |g.ws| ensures PrunedWidget(g.ws[n], g'.ws[n]) && g'.ws[n].enable == g.ws[n].enable {
      assert PrunedWidget(g.ws[n], g1.ws[n]) && PrunedWidget(g1.ws[n], g'.ws[n]);
    }
    forall c | 0 <= c < |g.cs|
      ensures ControlCrosses(g1.ws, assocs, g1.cs[c]) == ControlCrosses(g.ws, assocs, g.cs[c])
    {
      assert ControlOk(g.ws, g.cs[c]);
      assert PrunedWidget(g.ws[g.cs[c].widget], g1.ws[g.cs[c].widget]);
      if g.cs[c].child != -1 {
        assert PrunedWidget(g.ws[g.cs[c].child], g1.ws[g.cs[c].child]);
      }
    }
    forall n, k | 0 <= n < |g.ws| && 0 <= k < |g.ws[n].conns|
      ensures ControlCut(g1.ws, g1.cs, assocs, n, k, |g.cs|) == ControlCut(g.ws, g.cs, assocs, n, k, |g.cs|)
      ensures g1.ws[n].connsenable[k] <==> g.ws[n].connsenable[k] && !EdgeCut(g.ws, assocs, n, k)
    {
      assert EdgesCut(g.ws, assocs, n, g1.ws[n], |g.ws[n].conns|);
    }
  }

  method AudioDisableCrossAssociations(fg: FunctionGroup)
    requires ConfigOk(fg.startNode, ConfigOf(fg)) && Bindings(fg.widgets[..], fg.assocs[..])
    modifies fg.widgets, fg.controls
    ensures ConfigOk(fg.startNode, ConfigOf(fg)) && Pruned(old(ConfigOf(fg)), ConfigOf(fg))
    ensures Crossed(fg.startNode, old(ConfigOf(fg)), ConfigOf(fg), fg.assocs[..])
  {
    ghost var g0, assocs := ConfigOf(fg), fg.assocs[..];
    CrossWidgets(fg);
    ghost var g1 := ConfigOf(fg);
    RewiringsBound(g0.ws, g1.ws, assocs);
    CrossControls(fg);
    PrunedTwice(g0, g1, ConfigOf(fg));
    CrossedBoth(fg.startNode, g0, g1, ConfigOf(fg), assocs);
  }
}
