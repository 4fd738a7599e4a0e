/** Which widgets, connections and controls are enabled, and how the pruning
    passes may change that. */
module Configuration {
  import opened HdaGraph

  /** The widgets and the controls of a function group at one moment. */
  datatype Config = Config(ws: seq<Widget>, cs: seq<Control>)

  ghost predicate ConfigOk(startNode: nat, g: Config)
  {
    && WidgetsOk(startNode, g.ws)
    && forall c :: 0 <= c < |g.cs| ==> ControlOk(g.ws, g.cs[c])
  }

  ghost function ConfigOf(fg: FunctionGroup): Config
    reads fg.widgets, fg.controls
  {
    Config(fg.widgets[..], fg.controls[..])
  }

  // ----- Pruning -----

  /** A control as every pass leaves it when disabling it: forced mute, both
      channels muted, zero gain. */
  function Silenced(c: Control): Control
  {
    c.(forcemute := true, muted := (true, true), left := 0, right := 0, enable := false)
  }

  /** w' is w with possibly fewer things enabled. */
  predicate PrunedWidget(w: Widget, w': Widget)
  {
    && w' == w.(enable := w'.enable, connsenable := w'.connsenable, connsenabled := w'.connsenabled)
    && (w'.enable ==> w.enable)
    && |w'.connsenable| == |w.connsenable|
    && forall i :: 0 <= i < |w.connsenable| && w'.connsenable[i] ==> w.connsenable[i]
  }

  /** Nothing has been enabled, and what has been disabled is silent. */
  ghost predicate Pruned(g: Config, g': Config)
  {
    && |g'.ws| == |g.ws| && |g'.cs| == |g.cs|
    && (forall n :: 0 <= n < |g.ws| ==> PrunedWidget(g.ws[n], g'.ws[n]))
    && (forall c :: 0 <= c < |g.cs| ==> g'.cs[c] == g.cs[c] || g'.cs[c] == Silenced(g.cs[c]))
  }

  lemma PrunedTwice(g: Config, g1: Config, g2: Config)
    requires Pruned(g, g1) && Pruned(g1, g2)
    ensures Pruned(g, g2)
  {
    forall n | 0 <= n < |g.ws| ensures PrunedWidget(g.ws[n], g2.ws[n]) {
      assert PrunedWidget(g.ws[n], g1.ws[n]) && PrunedWidget(g1.ws[n], g2.ws[n]);
    }
  }

  /** Every disabled control is force-muted, muted and at zero gain. */
  predicate DisabledSilent(cs: seq<Control>)
  {
    forall c :: 0 <= c < |cs| && !cs[c].enable ==> cs[c] == Silenced(cs[c])
  }

  /** Disabled controls stay disabled and silent under every pass. */
  lemma PrunedSilent(g: Config, g': Config)
    requires Pruned(g, g') && DisabledSilent(g.cs)
    ensures DisabledSilent(g'.cs)
    ensures forall c :: 0 <= c < |g.cs| && !g.cs[c].enable ==> g'.cs[c] == g.cs[c]
  {
  }

  // ----- Elementary steps -----

  function DropWidget(g: Config, n: int): Config
    requires 0 <= n < |g.ws|
  {
    g.(ws := g.ws[n := g.ws[n].(enable := false)])
  }

  function WithoutConn(w: Widget, i: int): Widget
    requires 0 <= i < |w.connsenable|
  {
    w.(connsenable := w.connsenable[i := false], connsenabled := w.connsenabled - 1)
  }

  function DropConn(g: Config, n: int, i: int): Config
    requires 0 <= n < |g.ws| && 0 <= i < |g.ws[n].connsenable|
  {
    g.(ws := g.ws[n := WithoutConn(g.ws[n], i)])
  }

  function DropControl(g: Config, c: int): Config
    requires 0 <= c < |g.cs|
  {
    g.(cs := g.cs[c := Silenced(g.cs[c])])
  }

  lemma DropWidgetPruned(startNode: nat, g: Config, n: int)
    requires ConfigOk(startNode, g) && 0 <= n < |g.ws|
    ensures ConfigOk(startNode, DropWidget(g, n)) && Pruned(g, DropWidget(g, n))
  {
  }

  lemma DropConnPruned(startNode: nat, g: Config, n: int, i: int)
    requires ConfigOk(startNode, g) && 0 <= n < |g.ws| && Enabled(g.ws[n], i)
    ensures ConfigOk(startNode, DropConn(g, n, i)) && Pruned(g, DropConn(g, n, i))
  {
    CountTrueClear(g.ws[n].connsenable, i);
    assert WidgetOk(DropConn(g, n, i).ws[n]);
    assert forall m :: 0 <= m < |g.ws| ==> DropConn(g, n, i).ws[m].conns == g.ws[m].conns;
  }

  lemma DropControlPruned(startNode: nat, g: Config, c: int)
    requires ConfigOk(startNode, g) && 0 <= c < |g.cs|
    ensures ConfigOk(startNode, DropControl(g, c)) && Pruned(g, DropControl(g, c))
  {
  }

  // ----- Sub-configurations -----

  /** s enables no more than g: its widgets, their connections and its
      controls are enabled in g. */
  ghost predicate Sub(s: Config, g: Config)
  {
    && |s.ws| == |g.ws| && |s.cs| == |g.cs|
    && (forall n :: 0 <= n < |g.ws| ==>
          s.ws[n].kind == g.ws[n].kind && s.ws[n].conns == g.ws[n].conns && s.ws[n].config == g.ws[n].config)
    && (forall c :: 0 <= c < |g.cs| ==>
          s.cs[c].widget == g.cs[c].widget && s.cs[c].child == g.cs[c].child && s.cs[c].index == g.cs[c].index)
    && (forall n :: Live(s.ws, n) ==> Live(g.ws, n))
    && (forall n, i :: Live(s.ws, n) && Enabled(s.ws[n], i) ==> Enabled(g.ws[n], i))
    && (forall c :: 0 <= c < |g.cs| && s.cs[c].enable ==> g.cs[c].enable)
  }

  lemma PrunedSub(g: Config, g': Config)
    requires Pruned(g, g')
    ensures Sub(g', g)
  {
    forall n | 0 <= n < |g.ws|
      ensures g'.ws[n].kind == g.ws[n].kind && g'.ws[n].conns == g.ws[n].conns && g'.ws[n].config == g.ws[n].config
      ensures Live(g'.ws, n) ==> Live(g.ws, n)
      ensures forall i :: Enabled(g'.ws[n], i) ==> Enabled(g.ws[n], i)
    {
      assert PrunedWidget(g.ws[n], g'.ws[n]);
    }
  }

  /** Pins that no device is connected to, or that belong to no association. */
  predicate UselessPin(w: Widget)
  {
    w.kind == PinComplex && (Connectivity(w.config) == CONNECTIVITY_NONE || Association(w.config) == 0)
  }

  ghost predicate HasInput(w: Widget)
  {
    exists i :: Enabled(w, i)
  }

  /** An enabled widget has an enabled connection from n. */
  ghost predicate HasConsumer(ws: seq<Widget>, n: int)
  {
    exists k, i :: Live(ws, k) && Enabled(ws[k], i) && ws[k].conns[i] == n
  }

  predicate Routes(w: Widget)
  {
    w.kind == Mixer || w.kind == Selector
  }

  predicate ControlStable(ws: seq<Widget>, c: Control)
  {
    c.enable ==>
      && Live(ws, c.widget)
      && (c.child != -1 ==> Live(ws, c.child) && Enabled(ws[c.widget], c.index))
  }

  /** Nothing in the configuration is useless: enabled pins are wanted, live
      connections come from live widgets, mixers and selectors have an input
      and a consumer, controls amplify something live. */
  ghost predicate Stable(g: Config)
  {
    && (forall n :: Live(g.ws, n) ==> !UselessPin(g.ws[n]))
    && (forall n, i :: Live(g.ws, n) && Enabled(g.ws[n], i) ==> Live(g.ws, g.ws[n].conns[i]))
    && (forall n :: Live(g.ws, n) && Routes(g.ws[n]) ==> HasInput(g.ws[n]) && HasConsumer(g.ws, n))
    && (forall c :: 0 <= c < |g.cs| ==> ControlStable(g.ws, g.cs[c]))
  }
}
