/** The pruning passes that use the traced tree: audioDisableNonAudio,
    audioDisableUnassociated, audioDisableNonSelected and
    audioDisableCrossAssociations. */
module PruningPasses {
  import opened HdaGraph
  import opened Configuration

  // ----- audioCtlAmpGet -----

  /** An enabled control of nid in direction dir, at that index if one is given. */
  predicate CtlMatches(c: Control, nid: int, dir: Dir, index: int)
  {
    && c.enable && c.widget == nid && c.ndir == dir
    && !(index >= 0 && c.ndir == In && c.dir == c.ndir && c.index != index)
  }

  function MatchCount(cs: seq<Control>, nid: int, dir: Dir, index: int, i: int): nat
    requires i <= |cs|
  {
    if i <= 0 then 0
    else MatchCount(cs, nid, dir, index, i - 1) + if CtlMatches(cs[i - 1], nid, dir, index) then 1 else 0
  }

  /** Control c is the cnt-th match. */
  predicate IsNth(cs: seq<Control>, nid: int, dir: Dir, index: int, cnt: int, c: int)
  {
    && 0 <= c < |cs| && CtlMatches(cs[c], nid, dir, index)
    && MatchCount(cs, nid, dir, index, c) == if cnt <= 0 then 0 else cnt - 1
  }

  /** audioCtlAmpGet: the number of the cnt-th matching control, -1 for none. */
  method AudioCtlAmpGet(fg: FunctionGroup, nid: int, dir: Dir, index: int, cnt: int) returns (c: int)
    ensures c != -1 ==> IsNth(fg.controls[..], nid, dir, index, cnt, c)
    ensures c == -1 ==> MatchCount(fg.controls[..], nid, dir, index, fg.controls.Length) < if cnt <= 0 then 1 else cnt
  {
    var i, found := 0, 0;
    while i < fg.controls.Length
      invariant 0 <= i <= fg.controls.Length
      invariant found == MatchCount(fg.controls[..], nid, dir, index, i)
      invariant found < if cnt <= 0 then 1 else cnt
    {
      var control := fg.controls[i];
      if control.enable && control.widget == nid && control.ndir == dir
         && !(index >= 0 && control.ndir == In && control.dir == control.ndir && control.index != index) {
        found := found + 1;
        if found == cnt || cnt <= 0 {
          return i;
        }
      }
      i := i + 1;
    }
    return -1;
  }

  lemma {:induction false} MatchCountZero(cs: seq<Control>, nid: int, dir: Dir, index: int, i: int)
    requires i <= |cs|
    ensures MatchCount(cs, nid, dir, index, i) == 0 <==> forall c :: 0 <= c < i ==> !CtlMatches(cs[c], nid, dir, index)
  {
    if i > 0 {
      MatchCountZero(cs, nid, dir, index, i - 1);
    }
  }

  /** The control audioCtlAmpGet would have found in cs0 is disabled in cs. */
  ghost predicate Hushed(cs0: seq<Control>, cs: seq<Control>, nid: int, dir: Dir, index: int)
  {
    forall c :: IsNth(cs0, nid, dir, index, 1, c) && c < |cs| ==> !cs[c].enable
  }

  lemma HushedLater(g: Config, g1: Config, cs0: seq<Control>, nid: int, dir: Dir, index: int)
    requires Pruned(g, g1) && Hushed(cs0, g.cs, nid, dir, index)
    ensures Hushed(cs0, g1.cs, nid, dir, index)
  {
  }

  lemma FirstGone(g0: Config, g: Config, nid: int, dir: Dir, index: int, found: int, cs: seq<Control>)
    requires Pruned(g0, g)
    requires found != -1 ==> IsNth(g.cs, nid, dir, index, 1, found)
    requires found == -1 ==> MatchCount(g.cs, nid, dir, index, |g.cs|) == 0
    requires cs == if found == -1 then g.cs else g.cs[found := Silenced(g.cs[found])]
    ensures Hushed(g0.cs, cs, nid, dir, index)
  {
    forall c | IsNth(g0.cs, nid, dir, index, 1, c) && c < |cs| ensures !cs[c].enable {
      if g.cs[c].enable {
        assert CtlMatches(g.cs[c], nid, dir, index);
        MatchCountZero(g0.cs, nid, dir, index, c);
        MatchCountZero(g.cs, nid, dir, index, |g.cs|);
        if found != -1 {
          MatchCountZero(g.cs, nid, dir, index, found);
          assert g0.cs[found].enable && CtlMatches(g0.cs[found], nid, dir, index);
        }
      }
    }
  }

  /** Silences the control a pass looks for, if there is one. */
  method HushControl(fg: FunctionGroup, nid: int, dir: Dir, index: int, ghost g0: Config)
    requires ConfigOk(fg.startNode, ConfigOf(fg)) && Pruned(g0, ConfigOf(fg))
    modifies fg.controls
    ensures ConfigOk(fg.startNode, ConfigOf(fg)) && Pruned(g0, ConfigOf(fg)) && Pruned(old(ConfigOf(fg)), ConfigOf(fg))
    ensures Hushed(g0.cs, fg.controls[..], nid, dir, index)
    ensures forall c :: 0 <= c < fg.controls.Length && fg.controls[c] != old(fg.controls[c]) ==>
              CtlMatches(old(fg.controls[c]), nid, dir, index)
  {
    ghost var g := ConfigOf(fg);
    var c := AudioCtlAmpGet(fg, nid, dir, index, 1);
    if c != -1 && fg.controls[c].enable {
      DropControlPruned(fg.startNode, g, c);
      PrunedTwice(g0, g, DropControl(g, c));
      fg.controls[c] := fg.controls[c].(forcemute := true, muted := (true, true), left := 0, right := 0,
                                        enable := false);
      assert ConfigOf(fg) == DropControl(g, c);
    }
    FirstGone(g0, g, nid, dir, index, c, fg.controls[..]);
  }

  // ----- audioDisableNonAudio -----

  predicate NonAudio(w: Widget)
  {
    w.kind == PowerWidget || w.kind == VolumeKnob
  }

  /** The configuration without the widgets that are not audio. */
  function AudioOnly(g: Config): (g1: Config)
    ensures |g1.ws| == |g.ws|
  {
    g.(ws := seq(|g.ws|, n requires 0 <= n < |g.ws| =>
      g.ws[n].(enable := g.ws[n].enable && !NonAudio(g.ws[n]))))
  }

  method AudioDisableNonAudio(fg: FunctionGroup)
    requires ConfigOk(fg.startNode, ConfigOf(fg))
    modifies fg.widgets
    ensures ConfigOk(fg.startNode, ConfigOf(fg)) && Pruned(old(ConfigOf(fg)), ConfigOf(fg))
    ensures forall n :: 0 <= n < fg.widgets.Length ==>
              fg.widgets[n] == old(fg.widgets[n]).(enable := old(fg.widgets[n]).enable && !NonAudio(fg.widgets[n]))
    ensures forall n :: 0 <= n < fg.widgets.Length ==>
              (fg.widgets[n].enable <==>
                 old(fg.widgets[n]).enable && old(fg.widgets[n]).kind !in {PowerWidget, VolumeKnob})
  {
    ghost var g0 := ConfigOf(fg);
    var i := fg.startNode;
    while i < fg.widgets.Length
      invariant fg.startNode <= i <= fg.widgets.Length
      invariant ConfigOk(fg.startNode, ConfigOf(fg)) && Pruned(g0, ConfigOf(fg))
      invariant forall n :: 0 <= n < i ==> fg.widgets[n] == g0.ws[n].(enable := g0.ws[n].enable && !NonAudio(g0.ws[n]))
      invariant forall n :: i <= n < fg.widgets.Length ==> fg.widgets[n] == g0.ws[n]
    {
      if fg.widgets[i].enable && (fg.widgets[i].kind == PowerWidget || fg.widgets[i].kind == VolumeKnob) {
        ghost var g := ConfigOf(fg);
        DropWidgetPruned(fg.startNode, g, i);
        PrunedTwice(g0, g, DropWidget(g, i));
        fg.widgets[i] := fg.widgets[i].(enable := false);
        assert ConfigOf(fg) == DropWidget(g, i);
      }
      i := i + 1;
    }
  }

  // ----- Clearing connections -----

  /** Clears connection i of widget n. */
  method ClearConnection(fg: FunctionGroup, n: nat, i: nat, ghost g0: Config)
    requires ConfigOk(fg.startNode, ConfigOf(fg)) && Pruned(g0, ConfigOf(fg))
    requires n < fg.widgets.Length && Enabled(fg.widgets[n], i)
    modifies fg.widgets
    ensures ConfigOk(fg.startNode, ConfigOf(fg)) && Pruned(g0, ConfigOf(fg)) && Pruned(old(ConfigOf(fg)), ConfigOf(fg))
    ensures forall m :: 0 <= m < fg.widgets.Length && m != n ==> fg.widgets[m] == old(fg.widgets[m])
    ensures fg.widgets[n].enable == old(fg.widgets[n].enable)
    ensures forall k :: Enabled(fg.widgets[n], k) <==> old(Enabled(fg.widgets[n], k)) && k != i
  {
    ghost var g := ConfigOf(fg);
    DropConnPruned(fg.startNode, g, n, i);
    PrunedTwice(g0, g, DropConn(g, n, i));
    fg.widgets[n] := fg.widgets[n].(connsenable := fg.widgets[n].connsenable[i := false]);
    fg.widgets[n] := fg.widgets[n].(connsenabled := fg.widgets[n].connsenabled - 1);
    assert ConfigOf(fg) == DropConn(g, n, i);
  }

  // ----- audioDisableUnassociated -----

  /** n is an enabled pin bound to an association of direction dir. */
  predicate BoundPin(ws: seq<Widget>, assocs: seq<Assoc>, n: int, dir: Dir)
  {
    && Live(ws, n) && ws[n].kind == PinComplex
    && 0 <= ws[n].bindAssoc < |assocs| && assocs[ws[n].bindAssoc].dir == dir
  }

  /** Connection k of n goes: n is an input pin, or the connection comes from
      an output pin.  Only pins below i have been looked at. */
  predicate Cut(ws: seq<Widget>, assocs: seq<Assoc>, n: int, k: int, i: int)
    requires 0 <= n < |ws| && 0 <= k < |ws[n].conns|
  {
    || (n < i && BoundPin(ws, assocs, n, In))
    || (Live(ws, n) && ws[n].conns[k] < i && BoundPin(ws, assocs, ws[n].conns[k], Out))
  }

  /** The connections the pass leaves enabled; ws1 is the state after the
      unassociated widgets have been disabled. */
  ghost predicate CutUpTo(ws1: seq<Widget>, ws: seq<Widget>, assocs: seq<Assoc>, i: int)
  {
    && |ws| == |ws1|
    && (forall n :: 0 <= n < |ws| ==> ws[n].enable == ws1[n].enable && ws[n].conns == ws1[n].conns)
    && (forall n, k :: 0 <= n < |ws| && 0 <= k < |ws[n].conns| ==>
          (Enabled(ws[n], k) <==> Enabled(ws1[n], k) && !Cut(ws1, assocs, n, k, i)))
  }

  method DisableUnbound(fg: FunctionGroup)
    requires ConfigOk(fg.startNode, ConfigOf(fg))
    modifies fg.widgets
    ensures ConfigOk(fg.startNode, ConfigOf(fg)) && Pruned(old(ConfigOf(fg)), ConfigOf(fg))
    ensures forall n :: 0 <= n < fg.widgets.Length ==>
              var w := old(fg.widgets[n]); fg.widgets[n] == w.(enable := w.enable && w.bindAssoc != -1)
  {
    ghost var g0 := ConfigOf(fg);
    var i := fg.startNode;
    while i < fg.widgets.Length
      invariant fg.startNode <= i <= fg.widgets.Length
      invariant ConfigOk(fg.startNode, ConfigOf(fg)) && Pruned(g0, ConfigOf(fg))
      invariant forall n :: 0 <= n < i ==>
                fg.widgets[n] == g0.ws[n].(enable := g0.ws[n].enable && g0.ws[n].bindAssoc != -1)
      invariant forall n :: i <= n < fg.widgets.Length ==> fg.widgets[n] == g0.ws[n]
    {
      if fg.widgets[i].enable && fg.widgets[i].bindAssoc == -1 {
        ghost var g := ConfigOf(fg);
        DropWidgetPruned(fg.startNode, g, i);
        PrunedTwice(g0, g, DropWidget(g, i));
        fg.widgets[i] := fg.widgets[i].(enable := false);
        assert ConfigOf(fg) == DropWidget(g, i);
      }
      i := i + 1;
    }
  }

  /** An input pin loses all its own connections. */
  method CutInputPin(fg: FunctionGroup, i: nat, ghost g0: Config)
    requires ConfigOk(fg.startNode, ConfigOf(fg)) && Pruned(g0, ConfigOf(fg)) && i < fg.widgets.Length
    modifies fg.widgets
    ensures ConfigOk(fg.startNode, ConfigOf(fg)) && Pruned(g0, ConfigOf(fg))
    ensures Pruned(old(ConfigOf(fg)), ConfigOf(fg))
    ensures forall m :: 0 <= m < fg.widgets.Length && m != i ==> fg.widgets[m] == old(fg.widgets[m])
    ensures fg.widgets[i].enable == old(fg.widgets[i].enable)
    ensures forall k :: !Enabled(fg.widgets[i], k)
  {
    ghost var g := ConfigOf(fg);
    var j := 0;
    while j < |fg.widgets[i].conns|
      invariant 0 <= j <= |fg.widgets[i].conns| == |g.ws[i].conns|
      invariant ConfigOk(fg.startNode, ConfigOf(fg)) && Pruned(g0, ConfigOf(fg)) && Pruned(g, ConfigOf(fg))
      invariant forall m :: 0 <= m < fg.widgets.Length && m != i ==> fg.widgets[m] == g.ws[m]
      invariant fg.widgets[i].enable == g.ws[i].enable
      invariant forall k :: k < j ==> !Enabled(fg.widgets[i], k)
    {
      if fg.widgets[i].connsenable[j] {
        ghost var g1 := ConfigOf(fg);
        ClearConnection(fg, i, j, g0);
        PrunedTwice(g, g1, ConfigOf(fg));
      }
      j := j + 1;
    }
  }

  /** Connections from pin i are cleared at widgets below k0. */
  ghost predicate Severed(ws: seq<Widget>, ws': seq<Widget>, i: int, k0: int)
  {
    && |ws'| == |ws|
    && (forall n :: 0 <= n < |ws| ==> ws'[n].enable == ws[n].enable && ws'[n].conns == ws[n].conns)
    && (forall n, k :: 0 <= n < |ws| && 0 <= k < |ws[n].conns| ==>
          (Enabled(ws'[n], k) <==> Enabled(ws[n], k) && !(n < k0 && ws[n].enable && ws[n].conns[k] == i)))
  }

  /** The amplifiers of cut connections are left alone at pins and converters
      with several inputs. */
  predicate Exempt(w: Widget)
  {
    (w.kind == PinComplex || w.kind == AudioInput) && |w.conns| > 1
  }

  /** Connection k of w is enabled and comes from pin i. */
  predicate TakesFrom(w: Widget, k: int, i: int)
  {
    Enabled(w, k) && w.conns[k] == i
  }

  ghost predicate SeveredHushed(ws: seq<Widget>, cs0: seq<Control>, cs: seq<Control>, i: int, k0: int)
  {
    forall n, k :: 0 <= n < k0 && n < |ws| && ws[n].enable && TakesFrom(ws[n], k, i) && !Exempt(ws[n]) ==>
      Hushed(cs0, cs, n, In, k)
  }

  /** One connection of widget k that comes from pin i. */
  method CutEdge(fg: FunctionGroup, k: nat, j: nat, ghost g0: Config)
    requires ConfigOk(fg.startNode, ConfigOf(fg)) && Pruned(g0, ConfigOf(fg))
    requires k < fg.widgets.Length && Enabled(fg.widgets[k], j)
    modifies fg.widgets, fg.controls
    ensures ConfigOk(fg.startNode, ConfigOf(fg)) && Pruned(g0, ConfigOf(fg)) && Pruned(old(ConfigOf(fg)), ConfigOf(fg))
    ensures forall m :: 0 <= m < fg.widgets.Length && m != k ==> fg.widgets[m] == old(fg.widgets[m])
    ensures fg.widgets[k].enable == old(fg.widgets[k].enable)
    ensures forall m :: Enabled(fg.widgets[k], m) <==> old(Enabled(fg.widgets[k], m)) && m != j
    ensures !Exempt(old(fg.widgets[k])) ==> Hushed(g0.cs, fg.controls[..], k, In, j)
    ensures forall c :: 0 <= c < fg.controls.Length && fg.controls[c] != old(fg.controls[c]) ==>
              !Exempt(old(fg.widgets[k])) && CtlMatches(old(fg.controls[c]), k, In, j)
  {
    ghost var g := ConfigOf(fg);
    ClearConnection(fg, k, j, g0);
    if (fg.widgets[k].kind == PinComplex || fg.widgets[k].kind == AudioInput) && |fg.widgets[k].conns| > 1 {
      return;
    }
    ghost var g1 := ConfigOf(fg);
    HushControl(fg, k, In, j, g0);
    PrunedTwice(g, g1, ConfigOf(fg));
  }

  /** The control is for a connection of its widget from pin i that is cut. */
  ghost predicate ForCut(ws: seq<Widget>, c: Control, i: int)
  {
    && c.widget < |ws| && ws[c.widget].enable && !Exempt(ws[c.widget])
    && exists m :: Enabled(ws[c.widget], m) && ws[c.widget].conns[m] == i && CtlMatches(c, c.widget, In, m)
  }

  /** Only controls for connections from pin i that are cut have changed. */
  ghost predicate OnlyCut(ws: seq<Widget>, cs: seq<Control>, cs': seq<Control>, i: int)
  {
    |cs'| == |cs| && forall c :: 0 <= c < |cs| && cs'[c] != cs[c] ==> ForCut(ws, cs[c], i)
  }

  lemma OnlyCutNext(ws: seq<Widget>, cs: seq<Control>, cs1: seq<Control>, cs2: seq<Control>, i: int, k: nat, j: nat)
    requires OnlyCut(ws, cs, cs1, i) && |cs2| == |cs1| && k < |ws| && ws[k].enable
    requires Enabled(ws[k], j) && ws[k].conns[j] == i
    requires forall c :: 0 <= c < |cs| && cs2[c] != cs1[c] ==> !Exempt(ws[k]) && CtlMatches(cs1[c], k, In, j)
    ensures OnlyCut(ws, cs, cs2, i)
  {
  }

  lemma OnlyCutTwice(ws: seq<Widget>, ws1: seq<Widget>, cs: seq<Control>, cs1: seq<Control>, cs2: seq<Control>, i: int)
    requires OnlyCut(ws, cs, cs1, i) && OnlyCut(ws1, cs1, cs2, i)
    requires |ws1| == |ws| && forall n :: 0 <= n < |ws| ==> PrunedWidget(ws[n], ws1[n])
    ensures OnlyCut(ws, cs, cs2, i)
  {
    forall c | 0 <= c < |cs| && cs2[c] != cs[c] ensures ForCut(ws, cs[c], i) {
      if cs1[c] == cs[c] {
        assert PrunedWidget(ws[cs[c].widget], ws1[cs[c].widget]);
        var n := cs[c].widget;
        var m :| Enabled(ws1[n], m) && ws1[n].conns[m] == i && CtlMatches(cs[c], n, In, m);
        assert Enabled(ws[n], m);
      }
    }
  }

  /** Cuts what widget k takes from pin i. */
  method CutConsumer(fg: FunctionGroup, i: nat, k: nat, ghost g0: Config)
    requires ConfigOk(fg.startNode, ConfigOf(fg)) && Pruned(g0, ConfigOf(fg)) && k < fg.widgets.Length
    requires fg.widgets[k].enable
    modifies fg.widgets, fg.controls
    ensures ConfigOk(fg.startNode, ConfigOf(fg)) && Pruned(g0, ConfigOf(fg)) && Pruned(old(ConfigOf(fg)), ConfigOf(fg))
    ensures forall m :: 0 <= m < fg.widgets.Length && m != k ==> fg.widgets[m] == old(fg.widgets[m])
    ensures fg.widgets[k].enable == old(fg.widgets[k].enable) && fg.widgets[k].conns == old(fg.widgets[k].conns)
    ensures forall m :: 0 <= m < |fg.widgets[k].conns| ==>
              (Enabled(fg.widgets[k], m) <==> old(Enabled(fg.widgets[k], m)) && fg.widgets[k].conns[m] != i)
    ensures forall m :: old(Enabled(fg.widgets[k], m)) && fg.widgets[k].conns[m] == i && !Exempt(old(fg.widgets[k])) ==>
              Hushed(g0.cs, fg.controls[..], k, In, m)
    ensures OnlyCut(old(fg.widgets[..]), old(fg.controls[..]), fg.controls[..], i)
  {
    ghost var g := ConfigOf(fg);
    var conns := fg.widgets[k].conns;
    var j := 0;
    while j < |conns|
      invariant 0 <= j <= |conns|
      invariant ConfigOk(fg.startNode, ConfigOf(fg)) && Pruned(g0, ConfigOf(fg)) && Pruned(g, ConfigOf(fg))
      invariant forall m :: 0 <= m < fg.widgets.Length && m != k ==> fg.widgets[m] == g.ws[m]
      invariant PrunedWidget(g.ws[k], fg.widgets[k]) && fg.widgets[k].enable == g.ws[k].enable
      invariant forall m :: 0 <= m < |conns| ==>
                  (Enabled(fg.widgets[k], m) <==> Enabled(g.ws[k], m) && !(m < j && conns[m] == i))
      invariant forall m :: m < j && Enabled(g.ws[k], m) && conns[m] == i && !Exempt(g.ws[k]) ==>
                              Hushed(g0.cs, fg.controls[..], k, In, m)
      invariant OnlyCut(g.ws, g.cs, fg.controls[..], i)
    {
      if fg.widgets[k].connsenable[j] && conns[j] == i {
        ghost var g1 := ConfigOf(fg);
        CutEdge(fg, k, j, g0);
        OnlyCutNext(g.ws, g.cs, g1.cs, fg.controls[..], i, k, j);
        PrunedTwice(g, g1, ConfigOf(fg));
        forall m | m < j && Enabled(g.ws[k], m) && conns[m] == i && !Exempt(g.ws[k])
          ensures Hushed(g0.cs, fg.controls[..], k, In, m)
        {
          HushedLater(g1, ConfigOf(fg), g0.cs, k, In, m);
        }
      }
      j := j + 1;
    }
  }

  lemma SeveredNext(ws: seq<Widget>, ws1: seq<Widget>, ws2: seq<Widget>, i: int, k: nat, next: nat)
    requires Severed(ws, ws1, i, k) && |ws2| == |ws1| && k < |ws| && next == k + 1
    requires forall n :: 0 <= n < |ws| && n != k ==> ws2[n] == ws1[n]
    requires ws2[k].enable == ws1[k].enable && ws2[k].conns == ws1[k].conns
    requires forall m :: 0 <= m < |ws[k].conns| ==>
               (Enabled(ws2[k], m) <==> Enabled(ws1[k], m) && (ws[k].enable ==> ws[k].conns[m] != i))
    ensures Severed(ws, ws2, i, next)
  {
  }

  lemma SeveredHushedNext(g1: Config, g2: Config, ws: seq<Widget>, cs0: seq<Control>, i: int, k: nat, next: nat)
    requires Pruned(g1, g2) && SeveredHushed(ws, cs0, g1.cs, i, k) && next == k + 1
    requires k < |ws| && ws[k].enable ==> forall m :: Enabled(ws[k], m) && ws[k].conns[m] == i && !Exempt(ws[k]) ==>
               Hushed(cs0, g2.cs, k, In, m)
    ensures SeveredHushed(ws, cs0, g2.cs, i, next)
  {
    forall n, m | 0 <= n < next && n < |ws| && ws[n].enable && TakesFrom(ws[n], m, i) && !Exempt(ws[n])
      ensures Hushed(cs0, g2.cs, n, In, m)
    {
      if n < k {
        HushedLater(g1, g2, cs0, n, In, m);
      }
    }
  }

  /** Nobody may take anything from an output pin. */
  method CutOutputPin(fg: FunctionGroup, i: nat, ghost g0: Config)
    requires ConfigOk(fg.startNode, ConfigOf(fg)) && Pruned(g0, ConfigOf(fg))
    modifies fg.widgets, fg.controls
    ensures ConfigOk(fg.startNode, ConfigOf(fg)) && Pruned(g0, ConfigOf(fg)) && Pruned(old(ConfigOf(fg)), ConfigOf(fg))
    ensures Severed(old(fg.widgets[..]), fg.widgets[..], i, fg.widgets.Length)
    ensures SeveredHushed(old(fg.widgets[..]), g0.cs, fg.controls[..], i, fg.widgets.Length)
    ensures OnlyCut(old(fg.widgets[..]), old(fg.controls[..]), fg.controls[..], i)
  {
    ghost var g := ConfigOf(fg);
    var k := fg.startNode;
    while k < fg.widgets.Length
      invariant fg.startNode <= k <= fg.widgets.Length
      invariant ConfigOk(fg.startNode, ConfigOf(fg)) && Pruned(g0, ConfigOf(fg)) && Pruned(g, ConfigOf(fg))
      invariant Severed(g.ws, fg.widgets[..], i, k)
      invariant SeveredHushed(g.ws, g0.cs, fg.controls[..], i, k)
      invariant OnlyCut(g.ws, g.cs, fg.controls[..], i)
      invariant forall n :: k <= n < fg.widgets.Length ==> fg.widgets[n] == g.ws[n]
    {
      ghost var g1, k0 := ConfigOf(fg), k;
      if fg.widgets[k].enable {
        CutConsumer(fg, i, k, g0);
        OnlyCutTwice(g.ws, g1.ws, g.cs, g1.cs, fg.controls[..], i);
        PrunedTwice(g, g1, ConfigOf(fg));
      }
      k := k + 1;
      SeveredNext(g.ws, g1.ws, fg.widgets[..], i, k0, k);
      SeveredHushedNext(g1, ConfigOf(fg), g.ws, g0.cs, i, k0, k);
    }
    assert k == fg.widgets.Length;
  }

  /** The amplifiers silenced for the pins below i: one of every input pin, one
      of every output pin, and those of the connections cut for output pins. */
  ghost predicate PinsHushed(ws1: seq<Widget>, cs0: seq<Control>, cs: seq<Control>, assocs: seq<Assoc>, i: int)
  {
    && (forall n :: n < i && BoundPin(ws1, assocs, n, In) ==> Hushed(cs0, cs, n, In, -1))
    && (forall n :: n < i && BoundPin(ws1, assocs, n, Out) ==> Hushed(cs0, cs, n, Out, -1))
    && (forall n, k :: Live(ws1, n) && Enabled(ws1[n], k) && ws1[n].conns[k] < i
                       && BoundPin(ws1, assocs, ws1[n].conns[k], Out)
                       && !(BoundPin(ws1, assocs, n, In) && n < ws1[n].conns[k]) && !Exempt(ws1[n])
          ==> Hushed(cs0, cs, n, In, k))
  }

  /** Why the pass may silence control c on account of the pins below i: it is
      an input amplifier of an input pin, an output amplifier of an output pin,
      or for a connection from an output pin. */
  ghost predicate HushReason(ws1: seq<Widget>, assocs: seq<Assoc>, c: Control, i: int)
  {
    || (c.widget < i && BoundPin(ws1, assocs, c.widget, In) && c.ndir == In)
    || (c.widget < i && BoundPin(ws1, assocs, c.widget, Out) && c.ndir == Out)
    || exists p :: p < i && BoundPin(ws1, assocs, p, Out) && ForCut(ws1, c, p)
  }

  /** No other control has been touched. */
  ghost predicate HushedOnly(ws1: seq<Widget>, cs0: seq<Control>, cs: seq<Control>, assocs: seq<Assoc>, i: int)
  {
    |cs| == |cs0| && forall c :: 0 <= c < |cs0| && cs[c] != cs0[c] ==> HushReason(ws1, assocs, cs0[c], i)
  }

  /** What audioDisableUnassociated leaves once the pins below i are done; g1
      is the state after the unassociated widgets have been disabled. */
  ghost predicate PinsDone(g1: Config, g: Config, cs0: seq<Control>, assocs: seq<Assoc>, i: int)
  {
    && Pruned(g1, g) && CutUpTo(g1.ws, g.ws, assocs, i)
    && PinsHushed(g1.ws, cs0, g.cs, assocs, i) && HushedOnly(g1.ws, cs0, g.cs, assocs, i)
  }

  lemma PrunedBound(g1: Config, g: Config, assocs: seq<Assoc>, n: int, dir: Dir)
    requires Pruned(g1, g) && forall m :: 0 <= m < |g.ws| ==> g.ws[m].enable == g1.ws[m].enable
    ensures BoundPin(g.ws, assocs, n, dir) == BoundPin(g1.ws, assocs, n, dir)
  {
    if 0 <= n < |g.ws| {
      assert PrunedWidget(g1.ws[n], g.ws[n]);
    }
  }

  lemma HushedAll(g: Config, g': Config, ws1: seq<Widget>, cs0: seq<Control>, assocs: seq<Assoc>, i: int)
    requires Pruned(g, g') && PinsHushed(ws1, cs0, g.cs, assocs, i)
    ensures PinsHushed(ws1, cs0, g'.cs, assocs, i)
  {
    forall nid, dir, index | Hushed(cs0, g.cs, nid, dir, index) ensures Hushed(cs0, g'.cs, nid, dir, index) {
      HushedLater(g, g', cs0, nid, dir, index);
    }
  }

  /** Pin i is no bound pin. */
  lemma PinSkipped(g1: Config, g: Config, cs0: seq<Control>, assocs: seq<Assoc>, i: nat, next: nat)
    requires PinsDone(g1, g, cs0, assocs, i) && next == i + 1
    requires !BoundPin(g1.ws, assocs, i, In) && !BoundPin(g1.ws, assocs, i, Out)
    ensures PinsDone(g1, g, cs0, assocs, next)
  {
  }

  lemma HushedOnlyNext(ws1: seq<Widget>, ws: seq<Widget>, cs0: seq<Control>, cs: seq<Control>, cs': seq<Control>,
                       assocs: seq<Assoc>, i: nat, next: nat, dir: Dir)
    requires HushedOnly(ws1, cs0, cs, assocs, i) && next == i + 1 && BoundPin(ws1, assocs, i, dir)
    requires |ws| == |ws1| && (forall n :: 0 <= n < |ws| ==> PrunedWidget(ws1[n], ws[n])) && |cs'| == |cs|
    requires forall c :: 0 <= c < |cs| && cs'[c] != cs[c] ==>
               CtlMatches(cs[c], i, dir, -1) || (dir == Out && ForCut(ws, cs[c], i))
    ensures HushedOnly(ws1, cs0, cs', assocs, next)
  {
    forall c | 0 <= c < |cs0| && cs'[c] != cs0[c] ensures HushReason(ws1, assocs, cs0[c], next) {
      if cs[c] == cs0[c] && dir == Out && ForCut(ws, cs0[c], i) {
        var n := cs0[c].widget;
        assert PrunedWidget(ws1[n], ws[n]);
        var m :| Enabled(ws[n], m) && ws[n].conns[m] == i && CtlMatches(cs0[c], n, In, m);
        assert Enabled(ws1[n], m);
        assert ForCut(ws1, cs0[c], i);
      }
    }
  }

  lemma InputPinDone(g1: Config, g: Config, g': Config, cs0: seq<Control>, assocs: seq<Assoc>, i: nat, next: nat)
    requires PinsDone(g1, g, cs0, assocs, i) && next == i + 1
    requires BoundPin(g1.ws, assocs, i, In) && Pruned(g, g')
    requires forall m :: 0 <= m < |g.ws| && m != i ==> g'.ws[m] == g.ws[m]
    requires g'.ws[i].enable == g.ws[i].enable && forall k :: !Enabled(g'.ws[i], k)
    requires Hushed(cs0, g'.cs, i, In, -1)
    requires forall c :: 0 <= c < |g.cs| && g'.cs[c] != g.cs[c] ==> CtlMatches(g.cs[c], i, In, -1)
    ensures PinsDone(g1, g', cs0, assocs, next)
  {
    HushedOnlyNext(g1.ws, g.ws, cs0, g.cs, g'.cs, assocs, i, next, In);
    PrunedTwice(g1, g, g');
    HushedAll(g, g', g1.ws, cs0, assocs, i);
  }

  lemma OutputPinCut(ws1: seq<Widget>, ws: seq<Widget>, ws': seq<Widget>, assocs: seq<Assoc>, i: nat, next: nat)
    requires CutUpTo(ws1, ws, assocs, i) && next == i + 1
    requires BoundPin(ws1, assocs, i, Out) && Severed(ws, ws', i, |ws|)
    ensures CutUpTo(ws1, ws', assocs, next)
  {
  }

  lemma OutputPinDone(g1: Config, g: Config, g': Config, cs0: seq<Control>, assocs: seq<Assoc>, i: nat, next: nat)
    requires PinsDone(g1, g, cs0, assocs, i) && next == i + 1
    requires BoundPin(g1.ws, assocs, i, Out) && Pruned(g, g')
    requires Severed(g.ws, g'.ws, i, |g.ws|) && SeveredHushed(g.ws, cs0, g'.cs, i, |g.ws|)
    requires Hushed(cs0, g'.cs, i, Out, -1)
    requires forall c :: 0 <= c < |g.cs| && g'.cs[c] != g.cs[c] ==>
               CtlMatches(g.cs[c], i, Out, -1) || ForCut(g.ws, g.cs[c], i)
    ensures PinsDone(g1, g', cs0, assocs, next)
  {
    HushedOnlyNext(g1.ws, g.ws, cs0, g.cs, g'.cs, assocs, i, next, Out);
    PrunedTwice(g1, g, g');
    OutputPinCut(g1.ws, g.ws, g'.ws, assocs, i, next);
    OutputPinHushed(g1, g, g', cs0, assocs, i, next);
  }

  lemma OutputPinHushed(g1: Config, g: Config, g': Config, cs0: seq<Control>, assocs: seq<Assoc>, i: nat, next: nat)
    requires Pruned(g1, g) && CutUpTo(g1.ws, g.ws, assocs, i) && PinsHushed(g1.ws, cs0, g.cs, assocs, i)
    requires next == i + 1 && BoundPin(g1.ws, assocs, i, Out) && Pruned(g, g')
    requires SeveredHushed(g.ws, cs0, g'.cs, i, |g.ws|) && Hushed(cs0, g'.cs, i, Out, -1)
    ensures PinsHushed(g1.ws, cs0, g'.cs, assocs, next)
  {
    HushedAll(g, g', g1.ws, cs0, assocs, i);
    forall n, k | Live(g1.ws, n) && Enabled(g1.ws[n], k) && g1.ws[n].conns[k] < next
                  && BoundPin(g1.ws, assocs, g1.ws[n].conns[k], Out)
                  && !(BoundPin(g1.ws, assocs, n, In) && n < g1.ws[n].conns[k]) && !Exempt(g1.ws[n])
      ensures Hushed(cs0, g'.cs, n, In, k)
    {
      if g1.ws[n].conns[k] == i {
        assert PrunedWidget(g1.ws[n], g.ws[n]);
        assert Enabled(g.ws[n], k) by {
          assert !Cut(g1.ws, assocs, n, k, i);
        }
      }
    }
  }

  method UnassociatedPin(fg: FunctionGroup, i: nat, ghost g0: Config, ghost g1: Config)
    requires ConfigOk(fg.startNode, ConfigOf(fg)) && Pruned(g0, ConfigOf(fg)) && i < fg.widgets.Length
    requires PinsDone(g1, ConfigOf(fg), g0.cs, fg.assocs[..], i)
    requires BoundPin(fg.widgets[..], fg.assocs[..], i, In) || BoundPin(fg.widgets[..], fg.assocs[..], i, Out)
    modifies fg.widgets, fg.controls
    ensures ConfigOk(fg.startNode, ConfigOf(fg)) && Pruned(g0, ConfigOf(fg))
    ensures PinsDone(g1, ConfigOf(fg), g0.cs, fg.assocs[..], i + 1)
  {
    ghost var g, assocs, next := ConfigOf(fg), fg.assocs[..], i + 1;
    PrunedBound(g1, g, assocs, i, In);
    PrunedBound(g1, g, assocs, i, Out);
    if fg.assocs[fg.widgets[i].bindAssoc].dir == In {
      CutInputPin(fg, i, g0);
      ghost var g2 := ConfigOf(fg);
      HushControl(fg, i, In, -1, g0);
      PrunedTwice(g, g2, ConfigOf(fg));
      InputPinDone(g1, g, ConfigOf(fg), g0.cs, assocs, i, next);
    } else {
      HushControl(fg, i, Out, -1, g0);
      ghost var g2 := ConfigOf(fg);
      CutOutputPin(fg, i, g0);
      PrunedTwice(g, g2, ConfigOf(fg));
      HushedLater(g2, ConfigOf(fg), g0.cs, i, Out, -1);
      OutputPinDone(g1, g, ConfigOf(fg), g0.cs, assocs, i, next);
    }
  }

  /** The configuration after the unassociated widgets have been disabled. */
  function Associated(g: Config): (g1: Config)
    ensures |g1.ws| == |g.ws|
  {
    g.(ws := seq(|g.ws|, n requires 0 <= n < |g.ws| =>
      g.ws[n].(enable := g.ws[n].enable && g.ws[n].bindAssoc != -1)))
  }

  /** audioDisableUnassociated. */
  method AudioDisableUnassociated(fg: FunctionGroup)
    requires ConfigOk(fg.startNode, ConfigOf(fg))
    requires forall n :: 0 <= n < fg.widgets.Length ==> -2 <= fg.widgets[n].bindAssoc < fg.assocs.Length
    modifies fg.widgets, fg.controls
    ensures ConfigOk(fg.startNode, ConfigOf(fg)) && Pruned(old(ConfigOf(fg)), ConfigOf(fg))
    ensures PinsDone(Associated(old(ConfigOf(fg))), ConfigOf(fg), old(fg.controls[..]), fg.assocs[..],
                     fg.widgets.Length)
  {
    ghost var g0, assocs := ConfigOf(fg), fg.assocs[..];
    DisableUnbound(fg);
    ghost var g1 := ConfigOf(fg);
    assert g1 == Associated(g0);
    var i := fg.startNode;
    while i < fg.widgets.Length
      invariant fg.startNode <= i <= fg.widgets.Length
      invariant ConfigOk(fg.startNode, ConfigOf(fg)) && Pruned(g0, ConfigOf(fg))
      invariant PinsDone(g1, ConfigOf(fg), g0.cs, assocs, i)
    {
      ghost var g, k := ConfigOf(fg), i;
      assert PrunedWidget(g1.ws[k], g.ws[k]);
      if fg.widgets[i].enable && fg.widgets[i].kind == PinComplex && fg.widgets[i].bindAssoc >= 0 {
        UnassociatedPin(fg, i, g0, g1);
        i := i + 1;
      } else {
        i := i + 1;
        PinSkipped(g1, g, g0.cs, assocs, k, i);
      }
    }
    assert i == fg.widgets.Length;
  }
}
