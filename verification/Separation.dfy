/** What the pruning passes leave, said of the fields of the widgets and controls
    that are left: which connections there can be between associations. */
module Separation {
  import opened HdaGraph
  import opened Configuration
  import Pruning = PruningPasses
  import Selection = SelectionPasses
  import Useless = UselessPass

  // ----- Crossing connections -----

  /** w may take from child: they carry a common pin of one association, or one
      of them is of the pseudo association -2, or w is a monitor and child belongs
      to a recording association. */
  predicate MayTake(w: Widget, child: Widget, assocs: seq<Assoc>)
  {
    || w.bindAssoc == -2 || child.bindAssoc == -2
    || (w.monitor && 0 <= child.bindAssoc < |assocs| && assocs[child.bindAssoc].dir == In)
    || (w.bindAssoc == child.bindAssoc && w.bindSeqMask * child.bindSeqMask != {})
  }

  /** s is the lowest bit of the mask and the lowest present pin. */
  predicate LowestOfBoth(mask: set<int>, asc: Assoc, s: int)
    requires AssocOk(asc)
  {
    s in mask && 0 <= s < 16 && asc.pins[s] > 0 && forall b :: 0 <= b < s ==> b !in mask && asc.pins[b] <= 0
  }

  /** The mask holds the lowest present pin and no lower bit, or the pin the
      headphones share with. */
  ghost predicate HasFirstPin(mask: set<int>, asc: Assoc)
    requires AssocOk(asc)
  {
    || (asc.hpredir >= 0 && asc.hpredir in mask)
    || exists s :: LowestOfBoth(mask, asc, s)
  }

  /** Mixer w may hear child: it is no input monitor, or w plays, and for the same
      association or for the first pin of another. */
  ghost predicate MayMix(w: Widget, child: Widget, assocs: seq<Assoc>)
    requires forall a :: 0 <= a < |assocs| ==> AssocOk(assocs[a])
  {
    child.monitor && 0 <= w.bindAssoc < |assocs| ==>
      && assocs[w.bindAssoc].dir == Out
      && (w.bindAssoc == child.bindAssoc || HasFirstPin(w.bindSeqMask, assocs[w.bindAssoc]))
  }

  /** Connection k of widget n, if it is one of several and its ends are live,
      may be there. */
  ghost predicate MayConnect(ws: seq<Widget>, assocs: seq<Assoc>, n: int, k: int)
    requires Selection.Bindings(ws, assocs) && 0 <= n < |ws| && 0 <= k < |ws[n].conns|
  {
    ws[n].enable && |ws[n].conns| > 1 && 0 <= ws[n].conns[k] < |ws| && ws[ws[n].conns[k]].enable ==>
      if ws[n].kind == Mixer then MayMix(ws[n], ws[ws[n].conns[k]], assocs)
      else MayTake(ws[n], ws[ws[n].conns[k]], assocs)
  }

  /** The control is off, or has no child, or amplifies what may be there. */
  predicate MayAmplify(ws: seq<Widget>, assocs: seq<Assoc>, c: Control)
    requires ControlOk(ws, c)
  {
    c.enable && c.child != -1 ==> MayTake(ws[c.widget], ws[c.child], assocs)
  }

  lemma CrossesIff(w: Widget, child: Widget, assocs: seq<Assoc>)
    ensures Selection.Crosses(w, child, assocs) <==> !MayTake(w, child, assocs)
  {
    if b :| b in w.bindSeqMask && b in child.bindSeqMask {
      assert b in w.bindSeqMask * child.bindSeqMask;
    }
    if forall b :: b in w.bindSeqMask ==> b !in child.bindSeqMask {
      assert w.bindSeqMask * child.bindSeqMask == {};
    }
  }

  lemma FirstPinIff(mask: set<int>, asc: Assoc)
    requires AssocOk(asc)
    ensures Selection.HoldsFirstPin(mask, asc) <==> HasFirstPin(mask, asc)
  {
    if q :| Selection.LowestBit(mask, q) && Selection.LowestPin(asc, q) {
      assert LowestOfBoth(mask, asc, q);
    }
    if s :| LowestOfBoth(mask, asc, s) {
      assert Selection.LowestBit(mask, s) && Selection.LowestPin(asc, s);
    }
  }

  lemma EdgeCutIff(ws: seq<Widget>, assocs: seq<Assoc>, n: int, k: int)
    requires Selection.Bindings(ws, assocs) && 0 <= n < |ws| && 0 <= k < |ws[n].conns|
    ensures Selection.EdgeCut(ws, assocs, n, k) <==> !MayConnect(ws, assocs, n, k)
  {
    if Live(ws, ws[n].conns[k]) {
      CrossesIff(ws[n], ws[ws[n].conns[k]], assocs);
      if 0 <= ws[n].bindAssoc {
        FirstPinIff(ws[n].bindSeqMask, assocs[ws[n].bindAssoc]);
      }
    }
  }

  /** What audioDisableCrossAssociations leaves, exactly: the connections that may
      be there and are not those of a control that crosses; the controls that do
      not cross. */
  lemma CrossedExactly(startNode: nat, g: Config, g': Config, assocs: seq<Assoc>)
    requires ConfigOk(startNode, g) && Selection.Bindings(g.ws, assocs) && Selection.Crossed(startNode, g, g', assocs)
    ensures |g'.ws| == |g.ws| && |g'.cs| == |g.cs|
    ensures forall n, k :: 0 <= n < |g.ws| && 0 <= k < |g.ws[n].conns| ==>
              (Enabled(g'.ws[n], k) <==>
                 && Enabled(g.ws[n], k) && MayConnect(g.ws, assocs, n, k)
                 && forall c :: 0 <= c < |g.cs| && g.cs[c].widget == n && g.cs[c].index == k ==>
                      MayAmplify(g.ws, assocs, g.cs[c]))
    ensures forall c :: 0 <= c < |g.cs| ==>
              && (g'.cs[c].enable <==> g.cs[c].enable && MayAmplify(g.ws, assocs, g.cs[c]))
              && g'.cs[c] == if MayAmplify(g.ws, assocs, g.cs[c]) then g.cs[c] else
                   g.cs[c].(enable := false, forcemute := true, muted := (true, true), left := 0, right := 0)
  {
    forall c | 0 <= c < |g.cs|
      ensures Selection.ControlCrosses(g.ws, assocs, g.cs[c]) <==> !MayAmplify(g.ws, assocs, g.cs[c])
    {
      assert ControlOk(g.ws, g.cs[c]);
      if g.cs[c].child != -1 {
        CrossesIff(g.ws[g.cs[c].widget], g.ws[g.cs[c].child], assocs);
      }
    }
    forall n, k | 0 <= n < |g.ws| && 0 <= k < |g.ws[n].conns|
      ensures Enabled(g'.ws[n], k) <==>
                && Enabled(g.ws[n], k) && MayConnect(g.ws, assocs, n, k)
                && forall c :: 0 <= c < |g.cs| && g.cs[c].widget == n && g.cs[c].index == k ==>
                     MayAmplify(g.ws, assocs, g.cs[c])
    {
      EdgeCutIff(g.ws, assocs, n, k);
      assert PrunedWidget(g.ws[n], g'.ws[n]);
    }
  }

  /** No connection is enabled and no control is that may not be there. */
  ghost predicate NothingCrosses(g: Config, assocs: seq<Assoc>)
    requires Selection.Bindings(g.ws, assocs)
  {
    && (forall n, k :: 0 <= n < |g.ws| && Enabled(g.ws[n], k) ==> MayConnect(g.ws, assocs, n, k))
    && (forall c :: 0 <= c < |g.cs| ==> ControlOk(g.ws, g.cs[c]) && MayAmplify(g.ws, assocs, g.cs[c]))
  }

  lemma CrossedSeparates(startNode: nat, g: Config, g': Config, assocs: seq<Assoc>)
    requires ConfigOk(startNode, g) && Selection.Bindings(g.ws, assocs) && Selection.Crossed(startNode, g, g', assocs)
    requires ConfigOk(startNode, g') && Selection.Bindings(g'.ws, assocs)
    ensures NothingCrosses(g', assocs)
  {
    CrossedExactly(startNode, g, g', assocs);
    forall n, k | 0 <= n < |g'.ws| && Enabled(g'.ws[n], k) ensures MayConnect(g'.ws, assocs, n, k) {
      assert PrunedWidget(g.ws[n], g'.ws[n]) && MayConnect(g.ws, assocs, n, k);
      if 0 <= g.ws[n].conns[k] < |g.ws| {
        assert PrunedWidget(g.ws[g.ws[n].conns[k]], g'.ws[g.ws[n].conns[k]]);
      }
    }
    forall c | 0 <= c < |g'.cs| ensures MayAmplify(g'.ws, assocs, g'.cs[c]) {
      assert ControlOk(g.ws, g.cs[c]) && ControlOk(g'.ws, g'.cs[c]);
      assert PrunedWidget(g.ws[g.cs[c].widget], g'.ws[g.cs[c].widget]);
      if g.cs[c].child != -1 {
        assert PrunedWidget(g.ws[g.cs[c].child], g'.ws[g.cs[c].child]);
      }
    }
  }

  /** Pruning further opens no crossing. */
  lemma StillSeparate(startNode: nat, g: Config, g': Config, assocs: seq<Assoc>)
    requires ConfigOk(startNode, g') && Selection.Bindings(g.ws, assocs) && Selection.Bindings(g'.ws, assocs)
    requires Pruned(g, g') && NothingCrosses(g, assocs)
    ensures NothingCrosses(g', assocs)
  {
    forall n, k | 0 <= n < |g'.ws| && Enabled(g'.ws[n], k) ensures MayConnect(g'.ws, assocs, n, k) {
      assert PrunedWidget(g.ws[n], g'.ws[n]) && Enabled(g.ws[n], k) && MayConnect(g.ws, assocs, n, k);
      if 0 <= g.ws[n].conns[k] < |g.ws| {
        assert PrunedWidget(g.ws[g.ws[n].conns[k]], g'.ws[g.ws[n].conns[k]]);
      }
    }
    forall c | 0 <= c < |g'.cs| ensures ControlOk(g'.ws, g'.cs[c]) && MayAmplify(g'.ws, assocs, g'.cs[c]) {
      assert ControlOk(g.ws, g.cs[c]) && ControlOk(g'.ws, g'.cs[c]) && MayAmplify(g.ws, assocs, g.cs[c]);
      assert PrunedWidget(g.ws[g.cs[c].widget], g'.ws[g.cs[c].widget]);
      if g.cs[c].child != -1 {
        assert PrunedWidget(g.ws[g.cs[c].child], g'.ws[g.cs[c].child]);
      }
    }
  }

  // ----- Pins and selections -----

  /** A pin of a recording association takes nothing, nothing is taken from a pin
      of a playback association, and a widget of a playback association that has
      several inputs, is no mixer and has selected one takes from that one only. */
  ghost predicate OneWay(ws: seq<Widget>, assocs: seq<Assoc>)
  {
    forall n, k :: Live(ws, n) && Enabled(ws[n], k) ==> OneWayAt(ws, assocs, n, k)
  }

  predicate OneWayAt(ws: seq<Widget>, assocs: seq<Assoc>, n: int, k: int)
    requires 0 <= n < |ws| && 0 <= k < |ws[n].conns|
  {
    var w, c := ws[n], ws[n].conns[k];
    && !(w.kind == PinComplex && 0 <= w.bindAssoc < |assocs| && assocs[w.bindAssoc].dir == In)
    && !(0 <= c < |ws| && ws[c].enable && ws[c].kind == PinComplex
         && 0 <= ws[c].bindAssoc < |assocs| && assocs[ws[c].bindAssoc].dir == Out)
    && ((0 <= w.bindAssoc < |assocs| && assocs[w.bindAssoc].dir == Out
         && |w.conns| > 1 && w.kind != Mixer && 0 <= w.selconn) ==> k == w.selconn)
  }

  lemma StillOneWay(startNode: nat, g: Config, u: Config, v: Config, z: Config, assocs: seq<Assoc>)
    requires ConfigOk(startNode, g)
    requires Pruned(g, u) && Pruning.CutUpTo(Pruning.Associated(g).ws, u.ws, assocs, |g.ws|)
    requires Pruned(u, v) && (forall n :: 0 <= n < |u.ws| ==> Selection.SelectedIn(u.ws[n], v.ws[n], assocs))
    requires Pruned(v, z)
    ensures OneWay(z.ws, assocs)
  {
    var a := Pruning.Associated(g).ws;
    forall n, k | Live(z.ws, n) && Enabled(z.ws[n], k) ensures OneWayAt(z.ws, assocs, n, k) {
      var c := z.ws[n].conns[k];
      assert PrunedWidget(g.ws[n], u.ws[n]) && PrunedWidget(u.ws[n], v.ws[n]) && PrunedWidget(v.ws[n], z.ws[n]);
      assert Selection.SelectedIn(u.ws[n], v.ws[n], assocs) && Selection.KeptSelected(u.ws[n], assocs, k);
      assert Enabled(a[n], k) && Live(a, n) && !Pruning.Cut(a, assocs, n, k, |g.ws|);
      if 0 <= c < |g.ws| {
        assert PrunedWidget(g.ws[c], u.ws[c]) && PrunedWidget(u.ws[c], v.ws[c]) && PrunedWidget(v.ws[c], z.ws[c]);
      }
    }
  }

  // ----- Which amplifiers the first pass silences -----

  /** Control c is an enabled one of widget n on the side dir; for an input side and
      k >= 0 it is that of connection k, unless it is no input amplifier. */
  predicate SideControl(cs: seq<Control>, n: int, dir: Dir, k: int, c: int)
  {
    && 0 <= c < |cs| && cs[c].enable && cs[c].widget == n && cs[c].ndir == dir
    && (k < 0 || dir != In || cs[c].dir != In || cs[c].index == k)
  }

  predicate FirstSide(cs: seq<Control>, n: int, dir: Dir, k: int, c: int)
  {
    SideControl(cs, n, dir, k, c) && forall d :: 0 <= d < c ==> !SideControl(cs, n, dir, k, d)
  }

  lemma FirstSideIff(cs: seq<Control>, n: int, dir: Dir, k: int, c: int)
    ensures Pruning.IsNth(cs, n, dir, k, 1, c) <==> FirstSide(cs, n, dir, k, c)
  {
    if 0 <= c < |cs| {
      Pruning.MatchCountZero(cs, n, dir, k, c);
      assert forall d :: 0 <= d < |cs| ==> (Pruning.CtlMatches(cs[d], n, dir, k) <==> SideControl(cs, n, dir, k, d));
    }
  }

  /** Widget n is an enabled pin of an association of direction dir. */
  predicate PinFor(ws: seq<Widget>, assocs: seq<Assoc>, n: int, dir: Dir)
  {
    && 0 <= n < |ws| && ws[n].enable && ws[n].kind == PinComplex
    && 0 <= ws[n].bindAssoc < |assocs| && assocs[ws[n].bindAssoc].dir == dir
  }

  /** Connection k of n comes from an enabled playback pin, and n is an enabled and
      bound widget whose amplifier for it goes with it: no pin or audio input of
      several connections. */
  predicate FromPlaybackPin(ws: seq<Widget>, assocs: seq<Assoc>, n: int, k: int)
  {
    && 0 <= n < |ws| && ws[n].enable && ws[n].bindAssoc != -1
    && 0 <= k < |ws[n].conns| && k < |ws[n].connsenable| && ws[n].connsenable[k]
    && PinFor(ws, assocs, ws[n].conns[k], Out)
    && !(ws[n].kind in {PinComplex, AudioInput} && |ws[n].conns| > 1)
  }

  /** audioDisableUnassociated silences the first input control of every recording
      pin, the first output control of every playback pin, the first control of
      every connection from a playback pin - but those of a recording pin before it,
      whose connections are gone by then - and no control for any other reason. */
  lemma UnassociatedSilences(g: Config, u: Config, assocs: seq<Assoc>, c: nat)
    requires Pruning.PinsDone(Pruning.Associated(g), u, g.cs, assocs, |g.ws|) && c < |g.cs| == |u.cs|
    ensures forall n :: PinFor(g.ws, assocs, n, In) && FirstSide(g.cs, n, In, -1, c) ==> !u.cs[c].enable
    ensures forall n :: PinFor(g.ws, assocs, n, Out) && FirstSide(g.cs, n, Out, -1, c) ==> !u.cs[c].enable
    ensures forall n, k :: FromPlaybackPin(g.ws, assocs, n, k) && FirstSide(g.cs, n, In, k, c) ==>
              (PinFor(g.ws, assocs, n, In) && n < g.ws[n].conns[k]) || !u.cs[c].enable
    ensures u.cs[c] != g.cs[c] ==>
              || (PinFor(g.ws, assocs, g.cs[c].widget, In) && g.cs[c].ndir == In)
              || (PinFor(g.ws, assocs, g.cs[c].widget, Out) && g.cs[c].ndir == Out)
              || exists k :: FromPlaybackPin(g.ws, assocs, g.cs[c].widget, k)
                             && SideControl(g.cs, g.cs[c].widget, In, k, c)
  {
    var a := Pruning.Associated(g).ws;
    forall n, dir ensures Pruning.BoundPin(a, assocs, n, dir) <==> PinFor(g.ws, assocs, n, dir) {
    }
    forall n, dir, k ensures Pruning.IsNth(g.cs, n, dir, k, 1, c) <==> FirstSide(g.cs, n, dir, k, c) {
      FirstSideIff(g.cs, n, dir, k, c);
    }
    forall n, k | FromPlaybackPin(g.ws, assocs, n, k) && !(PinFor(g.ws, assocs, n, In) && n < g.ws[n].conns[k])
                  && FirstSide(g.cs, n, In, k, c)
      ensures !u.cs[c].enable
    {
      assert Live(a, n) && Enabled(a[n], k) && !Pruning.Exempt(a[n]);
      assert Pruning.Hushed(g.cs, u.cs, n, In, k);
    }
    if u.cs[c] != g.cs[c] {
      assert Pruning.HushReason(a, assocs, g.cs[c], |g.ws|);
      if p :| Pruning.BoundPin(a, assocs, p, Out) && Pruning.ForCut(a, g.cs[c], p) {
        var n := g.cs[c].widget;
        var m :| Enabled(a[n], m) && a[n].conns[m] == p && Pruning.CtlMatches(g.cs[c], n, In, m);
        assert FromPlaybackPin(g.ws, assocs, n, m) && SideControl(g.cs, n, In, m, c);
      }
    }
  }

  /** audioDisableUnassociated disables exactly the unbound widgets, and cuts exactly
      what recording pins take and what is taken from playback pins. */
  lemma UnassociatedExactly(g: Config, u: Config, assocs: seq<Assoc>, n: nat, k: nat)
    requires Pruning.CutUpTo(Pruning.Associated(g).ws, u.ws, assocs, |g.ws|) && |u.ws| == |g.ws| && n < |g.ws|
    requires WidgetOk(g.ws[n]) && WidgetOk(u.ws[n]) && k < |g.ws[n].conns|
    ensures u.ws[n].enable <==> g.ws[n].enable && g.ws[n].bindAssoc != -1
    ensures u.ws[n].conns == g.ws[n].conns
    ensures u.ws[n].connsenable[k] <==>
              && g.ws[n].connsenable[k] && !PinFor(g.ws, assocs, n, In)
              && !(u.ws[n].enable && PinFor(g.ws, assocs, g.ws[n].conns[k], Out))
  {
    var a := Pruning.Associated(g).ws;
    forall m, dir ensures Pruning.BoundPin(a, assocs, m, dir) <==> PinFor(g.ws, assocs, m, dir) {
    }
    assert Enabled(u.ws[n], k) <==> Enabled(a[n], k) && !Pruning.Cut(a, assocs, n, k, |g.ws|);
  }
}
