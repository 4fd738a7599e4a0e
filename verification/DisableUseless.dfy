/** audioDisableUseless: disables useless pins, then controls, connections and
    widgets until nothing useless is left.  It computes the greatest stable
    sub-configuration. */
module UselessPass {
  import opened HdaGraph
  import opened Configuration

  /** Every stable sub-configuration of g0 is still one of g. */
  ghost predicate Keeps(g0: Config, g: Config)
  {
    forall s :: Stable(s) && Sub(s, g0) ==> Sub(s, g)
  }

  // ----- Each elementary step is forced -----

  lemma KeepsDropPin(g0: Config, g: Config, n: int)
    requires Keeps(g0, g) && 0 <= n < |g.ws| && UselessPin(g.ws[n])
    ensures Keeps(g0, DropWidget(g, n))
  {
    forall s | Stable(s) && Sub(s, g0) ensures Sub(s, DropWidget(g, n)) {
      assert Sub(s, g);
      assert !Live(s.ws, n);
    }
  }

  lemma KeepsDropConn(g0: Config, g: Config, n: int, i: int)
    requires Keeps(g0, g) && 0 <= n < |g.ws| && Enabled(g.ws[n], i)
    requires !Live(g.ws, g.ws[n].conns[i])
    ensures Keeps(g0, DropConn(g, n, i))
  {
    forall s | Stable(s) && Sub(s, g0) ensures Sub(s, DropConn(g, n, i)) {
      assert Sub(s, g);
      SubDropConn(s, g, n, i);
    }
  }

  lemma SubDropConn(s: Config, g: Config, n: int, i: int)
    requires Stable(s) && Sub(s, g) && 0 <= n < |g.ws| && Enabled(g.ws[n], i) && !Live(g.ws, g.ws[n].conns[i])
    ensures Sub(s, DropConn(g, n, i))
  {
    assert !(Live(s.ws, n) && Enabled(s.ws[n], i));
  }

  lemma KeepsDropControl(g0: Config, g: Config, c: int)
    requires Keeps(g0, g) && 0 <= c < |g.cs| && !ControlStable(g.ws, g.cs[c])
    ensures Keeps(g0, DropControl(g, c))
  {
    forall s | Stable(s) && Sub(s, g0) ensures Sub(s, DropControl(g, c)) {
      assert Sub(s, g);
      assert ControlStable(s.ws, s.cs[c]);
    }
  }

  lemma SubUse(s: Config, g: Config, n: int)
    requires Sub(s, g)
    ensures Live(s.ws, n) && HasInput(s.ws[n]) ==> HasInput(g.ws[n])
    ensures HasConsumer(s.ws, n) ==> HasConsumer(g.ws, n)
  {
    if k, i :| Live(s.ws, k) && Enabled(s.ws[k], i) && s.ws[k].conns[i] == n {
      assert Live(g.ws, k) && Enabled(g.ws[k], i) && g.ws[k].conns[i] == n;
    }
  }

  lemma SubDropWidget(s: Config, g: Config, n: int)
    requires Sub(s, g) && 0 <= n < |g.ws| && !Live(s.ws, n)
    ensures Sub(s, DropWidget(g, n))
  {
  }

  lemma KeepsDropUnfed(g0: Config, g: Config, n: int)
    requires Keeps(g0, g) && 0 <= n < |g.ws| && Routes(g.ws[n]) && !HasInput(g.ws[n])
    ensures Keeps(g0, DropWidget(g, n))
  {
    forall s | Stable(s) && Sub(s, g0) ensures Sub(s, DropWidget(g, n)) {
      assert Sub(s, g);
      SubUse(s, g, n);
      SubDropWidget(s, g, n);
    }
  }

  lemma KeepsDropUnheard(g0: Config, g: Config, n: int)
    requires Keeps(g0, g) && 0 <= n < |g.ws| && Routes(g.ws[n]) && !HasConsumer(g.ws, n)
    ensures Keeps(g0, DropWidget(g, n))
  {
    forall s | Stable(s) && Sub(s, g0) ensures Sub(s, DropWidget(g, n)) {
      assert Sub(s, g);
      SubUse(s, g, n);
      SubDropWidget(s, g, n);
    }
  }

  // ----- The state between two steps -----

  /** g has been reached from g0 by forced steps. */
  ghost predicate Reached(startNode: nat, g0: Config, g: Config)
  {
    ConfigOk(startNode, g) && Pruned(g0, g) && Keeps(g0, g)
  }

  ghost predicate NoUselessPins(ws: seq<Widget>)
  {
    forall n :: Live(ws, n) ==> !UselessPin(ws[n])
  }

  lemma PrunedPins(g: Config, g': Config)
    requires Pruned(g, g') && NoUselessPins(g.ws)
    ensures NoUselessPins(g'.ws)
  {
    forall n | Live(g'.ws, n) ensures !UselessPin(g'.ws[n]) {
      assert PrunedWidget(g.ws[n], g'.ws[n]) && Live(g.ws, n);
    }
  }

  /** Widget n needs no further step of its own. */
  ghost predicate Settled(ws: seq<Widget>, n: int)
  {
    Live(ws, n) ==>
      && (forall i :: Enabled(ws[n], i) ==> Live(ws, ws[n].conns[i]))
      && (Routes(ws[n]) ==> HasInput(ws[n]) && HasConsumer(ws, n))
  }

  /** Since g1 only connections to disabled widgets have been disabled. */
  ghost predicate Quiet(g1: Config, g: Config)
  {
    && Pruned(g1, g) && g.cs == g1.cs
    && (forall n :: 0 <= n < |g1.ws| ==> g.ws[n].enable == g1.ws[n].enable)
    && (forall n, i :: 0 <= n < |g1.ws| && Enabled(g1.ws[n], i) && Live(g1.ws, g1.ws[n].conns[i]) ==>
          Enabled(g.ws[n], i))
  }

  lemma QuietSettled(g1: Config, g: Config, g': Config, n: int)
    requires Quiet(g1, g) && Quiet(g1, g') && 0 <= n < |g.ws|
    requires g'.ws[n] == g.ws[n] && Settled(g.ws, n)
    ensures Settled(g'.ws, n)
  {
    if Live(g'.ws, n) {
      forall i | Enabled(g'.ws[n], i) ensures Live(g'.ws, g'.ws[n].conns[i]) {
        assert Live(g.ws, g.ws[n].conns[i]);
      }
      if Routes(g.ws[n]) {
        var k, i :| Live(g.ws, k) && Enabled(g.ws[k], i) && g.ws[k].conns[i] == n;
        assert PrunedWidget(g1.ws[k], g.ws[k]) && PrunedWidget(g1.ws[k], g'.ws[k]);
        assert Enabled(g1.ws[k], i);
        assert Live(g'.ws, k) && Enabled(g'.ws[k], i) && g'.ws[k].conns[i] == n;
      }
    }
  }

  /** A pass that found nothing to do ends in a stable configuration. */
  lemma QuietStable(startNode: nat, g1: Config, g: Config)
    requires ConfigOk(startNode, g1) && Quiet(g1, g) && NoUselessPins(g1.ws)
    requires forall c :: 0 <= c < |g1.cs| ==> ControlStable(g1.ws, g1.cs[c])
    requires forall n :: 0 <= n < |g.ws| ==> Settled(g.ws, n)
    ensures Stable(g)
  {
    PrunedPins(g1, g);
    forall n, i | Live(g.ws, n) && Enabled(g.ws[n], i) ensures Live(g.ws, g.ws[n].conns[i]) {
      assert Settled(g.ws, n);
    }
    forall n | Live(g.ws, n) && Routes(g.ws[n]) ensures HasInput(g.ws[n]) && HasConsumer(g.ws, n) {
      assert Settled(g.ws, n);
    }
    forall c | 0 <= c < |g.cs| ensures ControlStable(g.ws, g.cs[c]) {
      assert ControlStable(g1.ws, g1.cs[c]) && ControlOk(g1.ws, g1.cs[c]);
    }
  }

  /** What is still enabled: nodes, and controls as negative numbers. */
  ghost function Awake(g: Config): set<int>
  {
    (set n | 0 <= n < |g.ws| && g.ws[n].enable) + (set c | 0 <= c < |g.cs| && g.cs[c].enable :: -1 - c)
  }

  lemma AwakePruned(g: Config, g': Config)
    requires Pruned(g, g')
    ensures Awake(g') <= Awake(g)
  {
    forall x | x in Awake(g') ensures x in Awake(g) {
      if x >= 0 {
        assert PrunedWidget(g.ws[x], g'.ws[x]);
      } else {
        var c := -1 - x;
        assert g'.cs[c] == g.cs[c] || g'.cs[c] == Silenced(g.cs[c]);
      }
    }
  }

  // ----- The pass -----

  method DisableUselessPins(fg: FunctionGroup, ghost g0: Config)
    requires Reached(fg.startNode, g0, ConfigOf(fg))
    modifies fg.widgets
    ensures Reached(fg.startNode, g0, ConfigOf(fg)) && NoUselessPins(fg.widgets[..])
  {
    var i := fg.startNode;
    while i < fg.widgets.Length
      invariant fg.startNode <= i <= fg.widgets.Length
      invariant Reached(fg.startNode, g0, ConfigOf(fg))
      invariant forall n :: 0 <= n < i && fg.widgets[n].enable ==> !UselessPin(fg.widgets[n])
    {
      if fg.widgets[i].enable && fg.widgets[i].kind == PinComplex
         && (Connectivity(fg.widgets[i].config) == CONNECTIVITY_NONE || Association(fg.widgets[i].config) == 0) {
        ghost var g := ConfigOf(fg);
        KeepsDropPin(g0, g, i);
        DropWidgetPruned(fg.startNode, g, i);
        PrunedTwice(g0, g, DropWidget(g, i));
        fg.widgets[i] := fg.widgets[i].(enable := false);
        assert ConfigOf(fg) == DropWidget(g, i);
      }
      i := i + 1;
    }
  }

  /** Disable and mute controls for disabled widgets. */
  method DisableUselessControls(fg: FunctionGroup, ghost g0: Config) returns (done: bool)
    requires Reached(fg.startNode, g0, ConfigOf(fg)) && NoUselessPins(fg.widgets[..])
    modifies fg.widgets, fg.controls
    ensures Reached(fg.startNode, g0, ConfigOf(fg)) && NoUselessPins(fg.widgets[..])
    ensures Awake(ConfigOf(fg)) <= old(Awake(ConfigOf(fg)))
    ensures !done ==> Awake(ConfigOf(fg)) < old(Awake(ConfigOf(fg)))
    ensures done ==> forall c :: 0 <= c < fg.controls.Length ==> ControlStable(fg.widgets[..], fg.controls[c])
  {
    ghost var g1 := ConfigOf(fg);
    done := true;
    var i := 0;
    while i < fg.controls.Length
      invariant 0 <= i <= fg.controls.Length
      invariant Reached(fg.startNode, g0, ConfigOf(fg)) && NoUselessPins(fg.widgets[..])
      invariant Awake(ConfigOf(fg)) <= Awake(g1)
      invariant !done ==> Awake(ConfigOf(fg)) < Awake(g1)
      invariant done ==> forall c :: 0 <= c < i ==> ControlStable(fg.widgets[..], fg.controls[c])
    {
      var control := fg.controls[i];
      assert ControlOk(fg.widgets[..], control);
      if control.enable
         && (!fg.widgets[control.widget].enable
             || (control.child != -1
                 && (!fg.widgets[control.child].enable || !fg.widgets[control.widget].connsenable[control.index]))) {
        DisableControl(fg, i, g0);
        done := false;
      }
      i := i + 1;
    }
  }

  /** One unstable control goes, with the connection it amplifies. */
  method DisableControl(fg: FunctionGroup, i: nat, ghost g0: Config)
    requires i < fg.controls.Length && fg.controls[i].enable
    requires Reached(fg.startNode, g0, ConfigOf(fg)) && NoUselessPins(fg.widgets[..])
    requires !ControlStable(fg.widgets[..], fg.controls[i])
    modifies fg.widgets, fg.controls
    ensures Reached(fg.startNode, g0, ConfigOf(fg)) && NoUselessPins(fg.widgets[..])
    ensures Awake(ConfigOf(fg)) < old(Awake(ConfigOf(fg)))
  {
    ghost var g := ConfigOf(fg);
    var control := fg.controls[i];
    assert ControlOk(g.ws, control);
    ghost var g1 := DropControl(g, i);
    KeepsDropControl(g0, g, i);
    DropControlPruned(fg.startNode, g, i);
    PrunedTwice(g0, g, g1);
    AwakePruned(g, g1);
    assert -1 - i in Awake(g) && -1 - i !in Awake(g1);
    fg.controls[i] := fg.controls[i].(forcemute := true, muted := (true, true), left := 0, right := 0, enable := false);
    assert ConfigOf(fg) == g1;
    if fg.widgets[control.widget].enable && fg.widgets[control.widget].connsenable[control.index] {
      KeepsDropConn(g0, g1, control.widget, control.index);
      DropConnPruned(fg.startNode, g1, control.widget, control.index);
      PrunedTwice(g0, g1, DropConn(g1, control.widget, control.index));
      PrunedPins(g1, DropConn(g1, control.widget, control.index));
      AwakePruned(g1, DropConn(g1, control.widget, control.index));
      fg.widgets[control.widget] := fg.widgets[control.widget].(
        connsenable := fg.widgets[control.widget].connsenable[control.index := false]);
      fg.widgets[control.widget] := fg.widgets[control.widget].(
        connsenabled := fg.widgets[control.widget].connsenabled - 1);
      assert ConfigOf(fg) == DropConn(g1, control.widget, control.index);
    }
  }

  /** Disable inputs with disabled child widgets. */
  method DisableDeadInputs(fg: FunctionGroup, i: nat, ghost g0: Config)
    requires i < fg.widgets.Length && fg.widgets[i].enable
    requires Reached(fg.startNode, g0, ConfigOf(fg))
    modifies fg.widgets
    ensures Reached(fg.startNode, g0, ConfigOf(fg))
    ensures Quiet(old(ConfigOf(fg)), ConfigOf(fg))
    ensures forall n :: 0 <= n < fg.widgets.Length && n != i ==> fg.widgets[n] == old(fg.widgets[n])
    ensures fg.widgets[i].enable
    ensures forall j :: Enabled(fg.widgets[i], j) ==> Live(fg.widgets[..], fg.widgets[i].conns[j])
  {
    ghost var g1 := ConfigOf(fg);
    var conns := fg.widgets[i].conns;
    var j := 0;
    while j < |conns|
      invariant 0 <= j <= |conns|
      invariant Reached(fg.startNode, g0, ConfigOf(fg))
      invariant Quiet(g1, ConfigOf(fg))
      invariant fg.widgets[i].enable && fg.widgets[i].conns == conns
      invariant forall n :: 0 <= n < fg.widgets.Length && n != i ==> fg.widgets[n] == g1.ws[n]
      invariant forall k :: k < j && Enabled(fg.widgets[i], k) ==> Live(fg.widgets[..], conns[k])
    {
      ghost var g := ConfigOf(fg);
      if fg.widgets[i].connsenable[j]
         && (!(fg.startNode <= conns[j] < fg.widgets.Length) || !fg.widgets[conns[j]].enable) {
        assert Enabled(g.ws[i], j) && !Live(g.ws, conns[j]);
        QuietStep(g1, g, i, j);
        DisableConnection(fg, i, j, g0);
      }
      DeadInputsNext(g.ws, fg.widgets[..], i, j);
      j := j + 1;
    }
  }

  lemma DeadInputsNext(ws: seq<Widget>, ws': seq<Widget>, i: nat, j: nat)
    requires i < |ws| && |ws'| == |ws| && j < |ws[i].conns| == |ws[i].connsenable|
    requires (ws' == ws && (ws[i].connsenable[j] ==> Live(ws, ws[i].conns[j]))) ||
             ws' == ws[i := WithoutConn(ws[i], j)]
    requires forall k :: k < j && Enabled(ws[i], k) ==> Live(ws, ws[i].conns[k])
    ensures forall k :: k < j + 1 && Enabled(ws'[i], k) ==> Live(ws', ws'[i].conns[k])
  {
    forall k | k < j + 1 && Enabled(ws'[i], k) ensures Live(ws', ws'[i].conns[k]) {
      assert Enabled(ws[i], k);
    }
  }

  method DisableConnection(fg: FunctionGroup, i: nat, j: nat, ghost g0: Config)
    requires i < fg.widgets.Length && Enabled(fg.widgets[i], j)
    requires Reached(fg.startNode, g0, ConfigOf(fg))
    requires !Live(fg.widgets[..], fg.widgets[i].conns[j])
    modifies fg.widgets
    ensures Reached(fg.startNode, g0, ConfigOf(fg))
    ensures i < |old(fg.widgets[..])| && j < |old(fg.widgets[..])[i].connsenable|
    ensures ConfigOf(fg) == DropConn(old(ConfigOf(fg)), i, j)
  {
    ghost var g := ConfigOf(fg);
    KeepsDropConn(g0, g, i, j);
    DropConnPruned(fg.startNode, g, i, j);
    PrunedTwice(g0, g, DropConn(g, i, j));
    fg.widgets[i] := fg.widgets[i].(connsenable := fg.widgets[i].connsenable[j := false]);
    fg.widgets[i] := fg.widgets[i].(connsenabled := fg.widgets[i].connsenabled - 1);
    assert ConfigOf(fg) == DropConn(g, i, j);
  }

  lemma QuietTwice(g1: Config, g: Config, g': Config, i: nat)
    requires Quiet(g1, g) && Quiet(g, g') && i < |g.ws|
    requires forall n :: 0 <= n < |g.ws| && n != i ==> g'.ws[n] == g.ws[n]
    ensures Quiet(g1, g')
    ensures forall n :: 0 <= n < |g.ws| && n != i && Settled(g.ws, n) ==> Settled(g'.ws, n)
  {
    PrunedTwice(g1, g, g');
    forall n, k | 0 <= n < |g1.ws| && Enabled(g1.ws[n], k) && Live(g1.ws, g1.ws[n].conns[k])
      ensures Enabled(g'.ws[n], k)
    {
      assert PrunedWidget(g1.ws[n], g.ws[n]);
      assert Enabled(g.ws[n], k) && Live(g.ws, g.ws[n].conns[k]);
    }
    forall n | 0 <= n < |g.ws| && n != i && Settled(g.ws, n) ensures Settled(g'.ws, n) {
      QuietSettled(g1, g, g', n);
    }
  }

  lemma QuietStep(g1: Config, g: Config, i: nat, j: nat)
    requires Quiet(g1, g) && i < |g.ws| && Enabled(g.ws[i], j) && !Live(g.ws, g.ws[i].conns[j])
    ensures Quiet(g1, DropConn(g, i, j))
  {
    var g' := DropConn(g, i, j);
    assert PrunedWidget(g1.ws[i], g.ws[i]);
    forall n, k | 0 <= n < |g1.ws| && Enabled(g1.ws[n], k) && Live(g1.ws, g1.ws[n].conns[k])
      ensures Enabled(g'.ws[n], k)
    {
      assert Enabled(g.ws[n], k);
      assert PrunedWidget(g1.ws[n], g.ws[n]);
      assert Live(g.ws, g1.ws[n].conns[k]);
    }
  }

  /** Disable mixers and selectors without inputs, and those without consumers. */
  method DisableUnused(fg: FunctionGroup, i: nat, ghost g0: Config) returns (used: bool)
    requires fg.startNode <= i < fg.widgets.Length && fg.widgets[i].enable && Routes(fg.widgets[i])
    requires Reached(fg.startNode, g0, ConfigOf(fg)) && NoUselessPins(fg.widgets[..])
    modifies fg.widgets
    ensures Reached(fg.startNode, g0, ConfigOf(fg)) && NoUselessPins(fg.widgets[..])
    ensures used ==> ConfigOf(fg) == old(ConfigOf(fg)) && HasInput(fg.widgets[i]) && HasConsumer(fg.widgets[..], i)
    ensures !used ==> Awake(ConfigOf(fg)) < old(Awake(ConfigOf(fg)))
  {
    ghost var g := ConfigOf(fg);
    used := true;
    assert WidgetOk(g.ws[i]);
    CountTruePositive(g.ws[i].connsenable);
    assert g.ws[i].connsenabled >= 1 <==> HasInput(g.ws[i]) by {
      if HasInput(g.ws[i]) {
        var k :| Enabled(g.ws[i], k);
        assert g.ws[i].connsenable[k];
      }
      if k :| 0 <= k < |g.ws[i].connsenable| && g.ws[i].connsenable[k] {
        assert Enabled(g.ws[i], k);
      }
    }
    if fg.widgets[i].connsenabled < 1 {
      KeepsDropUnfed(g0, g, i);
      DisableWidget(fg, i, g0);
      used := false;
    }
    var found := FindConsumer(fg, i);
    if !found {
      KeepsDropUnheard(g0, ConfigOf(fg), i);
      DisableWidget(fg, i, g0);
      used := false;
    }
  }

  /** Clears the enable flag (again). */
  method DisableWidget(fg: FunctionGroup, i: nat, ghost g0: Config)
    requires i < fg.widgets.Length
    requires ConfigOk(fg.startNode, ConfigOf(fg)) && Pruned(g0, ConfigOf(fg)) && NoUselessPins(fg.widgets[..])
    requires Keeps(g0, DropWidget(ConfigOf(fg), i))
    modifies fg.widgets
    ensures Reached(fg.startNode, g0, ConfigOf(fg)) && NoUselessPins(fg.widgets[..])
    ensures ConfigOf(fg) == DropWidget(old(ConfigOf(fg)), i)
    ensures Awake(ConfigOf(fg)) <= old(Awake(ConfigOf(fg))) - {i}
  {
    ghost var g := ConfigOf(fg);
    DropWidgetPruned(fg.startNode, g, i);
    PrunedTwice(g0, g, DropWidget(g, i));
    PrunedPins(g, DropWidget(g, i));
    AwakePruned(g, DropWidget(g, i));
    fg.widgets[i] := fg.widgets[i].(enable := false);
    assert ConfigOf(fg) == DropWidget(g, i);
  }

  method FindConsumer(fg: FunctionGroup, i: nat) returns (found: bool)
    requires ConfigOk(fg.startNode, ConfigOf(fg))
    ensures found <==> HasConsumer(fg.widgets[..], i)
  {
    ghost var ws := fg.widgets[..];
    found := false;
    var k := fg.startNode;
    while k < fg.widgets.Length
      invariant fg.startNode <= k <= fg.widgets.Length
      invariant found <==> exists n, j :: n < k && Live(ws, n) && Enabled(ws[n], j) && ws[n].conns[j] == i
    {
      var child := fg.widgets[k];
      if child.enable {
        var j := 0;
        while j < |child.conns|
          invariant 0 <= j <= |child.conns|
          invariant forall m :: m < j && Enabled(ws[k], m) ==> ws[k].conns[m] != i
        {
          if child.connsenable[j] && child.conns[j] == i {
            assert Live(ws, k) && Enabled(ws[k], j);
            found := true;
            break;
          }
          j := j + 1;
        }
      }
      k := k + 1;
    }
  }

  /** Disable useless widgets: one walk over all of them. */
  method DisableUselessWidgets(fg: FunctionGroup, done0: bool, ghost g0: Config) returns (done: bool)
    requires Reached(fg.startNode, g0, ConfigOf(fg)) && NoUselessPins(fg.widgets[..])
    modifies fg.widgets
    ensures Reached(fg.startNode, g0, ConfigOf(fg)) && NoUselessPins(fg.widgets[..])
    ensures Awake(ConfigOf(fg)) <= old(Awake(ConfigOf(fg)))
    ensures done ==> done0
    ensures done0 && !done ==> Awake(ConfigOf(fg)) < old(Awake(ConfigOf(fg)))
    ensures done ==> Quiet(old(ConfigOf(fg)), ConfigOf(fg))
    ensures done ==> forall n :: 0 <= n < fg.widgets.Length ==> Settled(fg.widgets[..], n)
  {
    ghost var g1 := ConfigOf(fg);
    done := done0;
    var i := fg.startNode;
    while i < fg.widgets.Length
      invariant fg.startNode <= i <= fg.widgets.Length
      invariant Reached(fg.startNode, g0, ConfigOf(fg)) && NoUselessPins(fg.widgets[..])
      invariant Awake(ConfigOf(fg)) <= Awake(g1)
      invariant done ==> done0
      invariant done0 && !done ==> Awake(ConfigOf(fg)) < Awake(g1)
      invariant done ==> Quiet(g1, ConfigOf(fg))
      invariant done ==> forall n :: 0 <= n < i ==> Settled(fg.widgets[..], n)
    {
      if fg.widgets[i].enable {
        ghost var g := ConfigOf(fg);
        var used := DisableUselessWidget(fg, i, g0);
        if done && used {
          QuietTwice(g1, g, ConfigOf(fg), i);
        }
        done := done && used;
      }
      i := i + 1;
    }
  }

  /** One widget of the walk. */
  method DisableUselessWidget(fg: FunctionGroup, i: nat, ghost g0: Config) returns (used: bool)
    requires fg.startNode <= i < fg.widgets.Length && fg.widgets[i].enable
    requires Reached(fg.startNode, g0, ConfigOf(fg)) && NoUselessPins(fg.widgets[..])
    modifies fg.widgets
    ensures Reached(fg.startNode, g0, ConfigOf(fg)) && NoUselessPins(fg.widgets[..])
    ensures Awake(ConfigOf(fg)) <= old(Awake(ConfigOf(fg)))
    ensures !used ==> Awake(ConfigOf(fg)) < old(Awake(ConfigOf(fg)))
    ensures used ==> Quiet(old(ConfigOf(fg)), ConfigOf(fg)) && Settled(fg.widgets[..], i)
    ensures used ==> forall n :: 0 <= n < fg.widgets.Length && n != i ==> fg.widgets[n] == old(fg.widgets[n])
  {
    ghost var g1 := ConfigOf(fg);
    DisableDeadInputs(fg, i, g0);
    PrunedPins(g1, ConfigOf(fg));
    AwakePruned(g1, ConfigOf(fg));
    if fg.widgets[i].kind != Selector && fg.widgets[i].kind != Mixer {
      return true;
    }
    used := DisableUnused(fg, i, g0);
  }

  /** audioDisableUseless.  The result is stable, it is a sub-configuration of
      the input, and it contains every other stable sub-configuration. */
  method AudioDisableUseless(fg: FunctionGroup)
    requires ConfigOk(fg.startNode, ConfigOf(fg))
    modifies fg.widgets, fg.controls
    ensures ConfigOk(fg.startNode, ConfigOf(fg))
    ensures Pruned(old(ConfigOf(fg)), ConfigOf(fg))
    ensures Stable(ConfigOf(fg)) && Sub(ConfigOf(fg), old(ConfigOf(fg)))
    ensures forall s :: Stable(s) && Sub(s, old(ConfigOf(fg))) ==> Sub(s, ConfigOf(fg))
  {
    ghost var g0 := ConfigOf(fg);
    DisableUselessPins(fg, g0);
    var done := false;
    while !done
      invariant Reached(fg.startNode, g0, ConfigOf(fg)) && NoUselessPins(fg.widgets[..])
      invariant done ==> Stable(ConfigOf(fg))
      decreases Awake(ConfigOf(fg)), !done
    {
      done := DisableUselessControls(fg, g0);
      ghost var g1 := ConfigOf(fg);
      done := DisableUselessWidgets(fg, done, g0);
      if done {
        QuietStable(fg.startNode, g1, ConfigOf(fg));
      }
    }
    PrunedSub(g0, ConfigOf(fg));
  }

  // ----- Stability in the fields -----

  /** Some enabled connection of w comes from node m. */
  ghost predicate TakesFrom(w: Widget, m: int)
  {
    exists i :: 0 <= i < |w.conns| && i < |w.connsenable| && w.connsenable[i] && w.conns[i] == m
  }

  /** Widget n may stay: it is off; or it is no pin without a device (port
      connectivity 1) or of association 0, what it takes over enabled connections
      is enabled, and if it is a mixer or selector it takes something and an
      enabled widget takes from it. */
  ghost predicate WidgetFits(ws: seq<Widget>, n: int)
    requires 0 <= n < |ws| && |ws[n].conns| == |ws[n].connsenable|
  {
    ws[n].enable ==>
      && (ws[n].kind == PinComplex ==> ws[n].config / 0x4000_0000 % 4 != 1 && ws[n].config / 0x10 % 16 != 0)
      && (forall i :: 0 <= i < |ws[n].conns| && ws[n].connsenable[i] ==>
            0 <= ws[n].conns[i] < |ws| && ws[ws[n].conns[i]].enable)
      && (ws[n].kind in {Mixer, Selector} ==>
            && (exists i :: 0 <= i < |ws[n].conns| && ws[n].connsenable[i])
            && (exists k :: 0 <= k < |ws| && ws[k].enable && TakesFrom(ws[k], n)))
  }

  /** A control may stay: its widget is enabled and, if it is for a connection,
      so are the connection and what is behind it. */
  predicate ControlFits(ws: seq<Widget>, c: Control)
  {
    && 0 <= c.widget < |ws| && ws[c.widget].enable
    && (c.child != -1 ==>
          && 0 <= c.child < |ws| && ws[c.child].enable
          && c.index < |ws[c.widget].conns| && c.index < |ws[c.widget].connsenable|
          && ws[c.widget].connsenable[c.index])
  }

  lemma FitsIff(ws: seq<Widget>, n: int)
    requires forall k :: 0 <= k < |ws| ==> |ws[k].conns| == |ws[k].connsenable|
    requires 0 <= n < |ws|
    ensures WidgetFits(ws, n) <==>
            (Live(ws, n) ==>
               && !UselessPin(ws[n]) && (forall i :: Enabled(ws[n], i) ==> Live(ws, ws[n].conns[i]))
               && (Routes(ws[n]) ==> HasInput(ws[n]) && HasConsumer(ws, n)))
  {
    TakenFrom(ws, n);
    if i :| 0 <= i < |ws[n].conns| && ws[n].connsenable[i] {
      assert Enabled(ws[n], i);
    }
    assert forall i :: Enabled(ws[n], i) <==> 0 <= i < |ws[n].conns| && ws[n].connsenable[i];
  }

  /** Stability in the fields. */
  lemma StableMeans(g: Config)
    requires forall n :: 0 <= n < |g.ws| ==> |g.ws[n].conns| == |g.ws[n].connsenable|
    ensures Stable(g) <==>
            && (forall n :: 0 <= n < |g.ws| ==> WidgetFits(g.ws, n))
            && (forall c :: 0 <= c < |g.cs| && g.cs[c].enable ==> ControlFits(g.ws, g.cs[c]))
  {
    forall n | 0 <= n < |g.ws|
      ensures WidgetFits(g.ws, n) <==>
              (Live(g.ws, n) ==>
                 && !UselessPin(g.ws[n]) && (forall i :: Enabled(g.ws[n], i) ==> Live(g.ws, g.ws[n].conns[i]))
                 && (Routes(g.ws[n]) ==> HasInput(g.ws[n]) && HasConsumer(g.ws, n)))
    {
      FitsIff(g.ws, n);
    }
    assert forall c :: 0 <= c < |g.cs| ==>
             (ControlStable(g.ws, g.cs[c]) <==> (g.cs[c].enable ==> ControlFits(g.ws, g.cs[c])));
  }

  lemma TakenFrom(ws: seq<Widget>, n: int)
    requires forall k :: 0 <= k < |ws| ==> |ws[k].conns| == |ws[k].connsenable|
    ensures HasConsumer(ws, n) <==> exists k :: 0 <= k < |ws| && ws[k].enable && TakesFrom(ws[k], n)
  {
    if k, i :| Live(ws, k) && Enabled(ws[k], i) && ws[k].conns[i] == n {
      assert TakesFrom(ws[k], n);
    }
    if k :| 0 <= k < |ws| && ws[k].enable && TakesFrom(ws[k], n) {
      var i :| 0 <= i < |ws[k].conns| && ws[k].connsenable[i] && ws[k].conns[i] == n;
      assert Live(ws, k) && Enabled(ws[k], i);
    }
  }
}
