/** Jack switching: hpSwitchHandler, micSwitchHandler and the poll of
    switchHandler, over any run of polls. */
module JackSwitch {
  import opened HdaGraph
  import opened Configuration
  import opened Amplifiers
  import opened PruningPasses
  import opened CodecCommit

  /** HDA_CMD_SET_PIN_WIDGET_CTRL_OUT_ENABLE */
  const OUT_ENABLE: bv32 := 0x40

  function WithOutput(ctrl: bv32, on: bool): bv32
  {
    if on then ctrl | OUT_ENABLE else ctrl & !OUT_ENABLE
  }

  predicate OutputOn(ctrl: bv32)
  {
    ctrl & OUT_ENABLE != 0
  }

  function OtherBits(ctrl: bv32): bv32
  {
    ctrl & !OUT_ENABLE
  }

  lemma OutputBit(ctrl: bv32, on: bool)
    ensures OutputOn(WithOutput(ctrl, on)) == on
    ensures OtherBits(WithOutput(ctrl, on)) == OtherBits(ctrl)
  {
  }

  // ----- When a pin can be heard -----

  predicate PinCtl(c: Control, n: int)
  {
    c.enable && c.widget == n && c.ndir == In
  }

  /** Control c is the one the handlers use to mute pin n: the first enabled
      one, if it can mute. */
  predicate IsMuter(cs: seq<Control>, n: int, c: int)
  {
    0 <= c < |cs| && PinCtl(cs[c], n) && cs[c].mute && forall d :: 0 <= d < c ==> !PinCtl(cs[d], n)
  }

  ghost predicate HasMuter(cs: seq<Control>, n: int)
  {
    exists c :: IsMuter(cs, n, c)
  }

  /** A pin with a muter is heard when it is not forced mute, another one when
      its output is enabled. */
  ghost predicate Audible(ws: seq<Widget>, cs: seq<Control>, n: int)
    requires 0 <= n < |ws|
  {
    if HasMuter(cs, n) then exists c :: IsMuter(cs, n, c) && !cs[c].forcemute
    else OutputOn(ws[n].ctrl)
  }

  lemma FirstIsMuter(cs: seq<Control>, n: int, c: int)
    requires c != -1 ==> IsNth(cs, n, In, -1, 1, c)
    requires c == -1 ==> MatchCount(cs, n, In, -1, |cs|) == 0
    ensures c != -1 && cs[c].mute ==> IsMuter(cs, n, c) && forall d :: IsMuter(cs, n, d) ==> d == c
    ensures c == -1 || !cs[c].mute ==> !HasMuter(cs, n)
  {
    if c == -1 {
      MatchCountZero(cs, n, In, -1, |cs|);
      assert forall d :: 0 <= d < |cs| ==> CtlMatches(cs[d], n, In, -1) == PinCtl(cs[d], n);
    } else {
      MatchCountZero(cs, n, In, -1, c);
      assert forall d :: 0 <= d < |cs| ==> CtlMatches(cs[d], n, In, -1) == PinCtl(cs[d], n);
    }
  }

  // ----- What jack events may change -----

  /** Only the pin control word, the sense and the selection differ. */
  predicate SameNode(w: Widget, w': Widget)
  {
    w' == w.(ctrl := w'.ctrl, sense := w'.sense, selconn := w'.selconn)
  }

  /** Only the output enable bit of the control word may differ. */
  predicate SameOtherBits(w: Widget, w': Widget)
  {
    OtherBits(w'.ctrl) == OtherBits(w.ctrl)
  }

  /** Only forcemute differs, and only of an enabled control. */
  predicate SameControl(c: Control, c': Control)
  {
    c' == c.(forcemute := c'.forcemute) && (!c.enable ==> c' == c)
  }

  ghost predicate Switched(ws: seq<Widget>, cs: seq<Control>, ws': seq<Widget>, cs': seq<Control>)
  {
    && |ws'| == |ws| && |cs'| == |cs|
    && (forall n :: 0 <= n < |ws| ==> SameNode(ws[n], ws'[n]) && SameOtherBits(ws[n], ws'[n]))
    && (forall c :: 0 <= c < |cs| ==> SameControl(cs[c], cs'[c]))
  }

  /** Widget n and its controls are untouched, but for the sense and the
      selection. */
  ghost predicate Untouched(ws: seq<Widget>, cs: seq<Control>, ws': seq<Widget>, cs': seq<Control>, n: int)
    requires |ws'| == |ws| && |cs'| == |cs|
  {
    && (0 <= n < |ws| ==> ws'[n].ctrl == ws[n].ctrl)
    && forall c :: 0 <= c < |cs| && cs[c].widget == n ==> cs'[c] == cs[c]
  }

  lemma SwitchedTwice(ws: seq<Widget>, cs: seq<Control>, ws1: seq<Widget>, cs1: seq<Control>, ws2: seq<Widget>,
                      cs2: seq<Control>)
    requires Switched(ws, cs, ws1, cs1) && Switched(ws1, cs1, ws2, cs2)
    ensures Switched(ws, cs, ws2, cs2)
  {
    forall n | 0 <= n < |ws| ensures SameNode(ws[n], ws2[n]) && SameOtherBits(ws[n], ws2[n]) {
      assert SameNode(ws[n], ws1[n]) && SameNode(ws1[n], ws2[n]);
      assert SameOtherBits(ws[n], ws1[n]) && SameOtherBits(ws1[n], ws2[n]);
    }
    forall c | 0 <= c < |cs| ensures SameControl(cs[c], cs2[c]) {
      assert SameControl(cs[c], cs1[c]) && SameControl(cs1[c], cs2[c]);
    }
  }

  /** Which control mutes a pin does not change. */
  lemma SameMuters(ws: seq<Widget>, cs: seq<Control>, ws': seq<Widget>, cs': seq<Control>, n: int)
    requires Switched(ws, cs, ws', cs')
    ensures forall c :: IsMuter(cs', n, c) <==> IsMuter(cs, n, c)
    ensures HasMuter(cs', n) <==> HasMuter(cs, n)
  {
    forall c | 0 <= c < |cs| ensures PinCtl(cs'[c], n) == PinCtl(cs[c], n) && cs'[c].mute == cs[c].mute {
      assert SameControl(cs[c], cs'[c]);
    }
    assert forall c :: IsMuter(cs', n, c) <==> IsMuter(cs, n, c);
  }

  lemma UntouchedAudible(ws: seq<Widget>, cs: seq<Control>, ws': seq<Widget>, cs': seq<Control>, n: int)
    requires Switched(ws, cs, ws', cs') && 0 <= n < |ws| && Untouched(ws, cs, ws', cs', n)
    ensures Audible(ws', cs', n) == Audible(ws, cs, n)
  {
    SameMuters(ws, cs, ws', cs', n);
  }

  // ----- Tables a jack event relies on -----

  ghost predicate ControlsReady(ws: seq<Widget>, cs: seq<Control>)
  {
    AllInRange(cs) && DistinctAmps(cs) && forall c :: 0 <= c < |cs| ==> cs[c].widget < |ws|
  }

  lemma ControlsStayReady(ws: seq<Widget>, cs: seq<Control>, ws': seq<Widget>, cs': seq<Control>)
    requires ControlsReady(ws, cs) && Switched(ws, cs, ws', cs')
    ensures ControlsReady(ws', cs')
  {
    forall c | 0 <= c < |cs| ensures LevelsInRange(cs'[c]) && cs'[c].widget < |ws'| {
      assert SameControl(cs[c], cs'[c]) && LevelsInRange(cs[c]);
    }
    forall c, d | 0 <= c < d < |cs| ensures !SameAmp(cs'[c], cs'[d]) {
      assert SameControl(cs[c], cs'[c]) && SameControl(cs[d], cs'[d]);
      assert !SameAmp(cs[c], cs[d]);
    }
  }

  /** Forces an enabled control mute or not, and tells the codec. */
  lemma ForcedReady(startNode: nat, ws: seq<Widget>, cs: seq<Control>, log: seq<Verb>, c: nat, c': Control,
                    log': seq<Verb>)
    requires ControlsReady(ws, cs) && CodecReady(startNode, ws, cs, log) && c < |cs| && cs[c].enable
    requires c' == cs[c].(forcemute := c'.forcemute) && Written(log, log', c')
    ensures CodecReady(startNode, ws, cs[c := c'], log')
  {
    var cs' := cs[c := c'];
    forall d | 0 <= d < |cs'|
      ensures if PassesAudio(ws, cs'[d]) then Opened(log', cs'[d]) else Mirrors(log', cs'[d])
    {
      if d != c {
        assert d < c ==> !SameAmp(cs[d], cs[c]);
        assert c < d ==> !SameAmp(cs[c], cs[d]);
        WrittenOther(log, log', c', cs[d]);
      } else {
        WrittenMirrors(log, log', c', c');
      }
    }
  }

  lemma WrittenOther(log: seq<Verb>, log': seq<Verb>, c: Control, d: Control)
    requires Written(log, log', c) && !SameAmp(c, d)
    ensures Mirrors(log, d) ==> Mirrors(log', d)
    ensures Opened(log, d) ==> Opened(log', d)
  {
    forall right ensures AmpOfControl(log', d, right) == AmpOfControl(log, d, right) {
      assert AmpAt(log', d.widget, d.dir, AmpIndex(d), right) == AmpOfControl(log', d, right);
    }
  }

  // ----- Muting and unmuting one pin -----

  /** Pin n is heard or not, as asked; nothing else changes. */
  ghost predicate PinSet(startNode: nat, ws: seq<Widget>, cs: seq<Control>, ws': seq<Widget>, cs': seq<Control>, n: int,
                         on: bool)
  {
    && Switched(ws, cs, ws', cs')
    && (forall m :: m != n ==> Untouched(ws, cs, ws', cs', m))
    && (forall m :: 0 <= m < |ws| ==> ws'[m].sense == ws[m].sense && ws'[m].selconn == ws[m].selconn)
    && (startNode <= n < |ws| && ws[n].kind == PinComplex ==> Audible(ws', cs', n) == on)
  }

  lemma ForcedPin(startNode: nat, ws: seq<Widget>, cs: seq<Control>, cs': seq<Control>, n: int, c: nat, on: bool)
    requires IsMuter(cs, n, c) && (forall d :: IsMuter(cs, n, d) ==> d == c)
    requires cs' == cs[c := cs[c].(forcemute := !on)]
    ensures PinSet(startNode, ws, cs, ws, cs', n, on)
  {
    assert Switched(ws, cs, ws, cs');
    SameMuters(ws, cs, ws, cs', n);
    assert IsMuter(cs', n, c);
  }

  lemma EnabledPin(startNode: nat, ws: seq<Widget>, cs: seq<Control>, n: nat, on: bool, val: bv32)
    requires !HasMuter(cs, n) && n < |ws|
    requires OutputOn(val) == on && OtherBits(val) == OtherBits(ws[n].ctrl)
    ensures PinSet(startNode, ws, cs, ws[n := ws[n].(ctrl := val)], cs, n, on)
  {
  }

  method SetPinAudible(fg: FunctionGroup, link: CodecLink, n: int, on: bool)
    requires ControlsReady(fg.widgets[..], fg.controls[..])
    requires CodecReady(fg.startNode, fg.widgets[..], fg.controls[..], link.log)
    modifies fg.widgets, fg.controls, link
    ensures PinSet(fg.startNode, old(fg.widgets[..]), old(fg.controls[..]), fg.widgets[..], fg.controls[..], n, on)
    ensures CodecReady(fg.startNode, fg.widgets[..], fg.controls[..], link.log)
  {
    ghost var ws, cs, log := fg.widgets[..], fg.controls[..], link.log;
    var c := AudioCtlAmpGet(fg, n, In, -1, 1);
    FirstIsMuter(cs, n, c);
    if c != -1 && fg.controls[c].mute {
      ForceMute(fg, link, c, !on);
      ForcedPin(fg.startNode, ws, cs, fg.controls[..], n, c, on);
    } else if fg.startNode <= n < fg.widgets.Length && fg.widgets[n].kind == PinComplex {
      EnableOutput(fg, link, n, on);
    }
  }

  /** Enables or disables the output of a pin without a muter. */
  method EnableOutput(fg: FunctionGroup, link: CodecLink, n: nat, on: bool)
    requires fg.startNode <= n < fg.widgets.Length && !HasMuter(fg.controls[..], n)
    requires CodecReady(fg.startNode, fg.widgets[..], fg.controls[..], link.log)
    modifies fg.widgets, link
    ensures PinSet(fg.startNode, old(fg.widgets[..]), fg.controls[..], fg.widgets[..], fg.controls[..], n, on)
    ensures CodecReady(fg.startNode, fg.widgets[..], fg.controls[..], link.log)
  {
    ghost var ws, log := fg.widgets[..], link.log;
    var val := WithOutput(fg.widgets[n].ctrl, on);
    OutputBit(ws[n].ctrl, on);
    EnabledPin(fg.startNode, ws, fg.controls[..], n, on, val);
    if val != fg.widgets[n].ctrl {
      fg.widgets[n] := fg.widgets[n].(ctrl := val);
      NoAmpVerb(log, SetPinCtrl(n, val));
      link.SendCommand(SetPinCtrl(n, val));
      SameAmpsOpened(ws, fg.controls[..], log, link.log, fg.controls.Length);
      OpenedSame(ws, fg.widgets[..], fg.controls[..], link.log);
    }
    assert fg.widgets[..] == ws[n := ws[n].(ctrl := val)];
  }

  /** Forces control c mute or lifts the force, if that is a change. */
  method ForceMute(fg: FunctionGroup, link: CodecLink, c: nat, force: bool)
    requires ControlsReady(fg.widgets[..], fg.controls[..]) && c < fg.controls.Length && fg.controls[c].enable
    requires CodecReady(fg.startNode, fg.widgets[..], fg.controls[..], link.log)
    modifies fg.controls, link
    ensures fg.controls[..] == old(fg.controls[..])[c := old(fg.controls[c]).(forcemute := force)]
    ensures CodecReady(fg.startNode, fg.widgets[..], fg.controls[..], link.log)
  {
    ghost var cs, log := fg.controls[..], link.log;
    if fg.controls[c].forcemute != force {
      assert LevelsInRange(cs[c]);
      fg.controls[c] := fg.controls[c].(forcemute := force);
      AudioCtlAmpSet(fg, link, c, None, KEEP, KEEP);
      ForcedReady(fg.startNode, fg.widgets[..], cs, log, c, fg.controls[c], link.log);
      assert fg.controls[..] == cs[c := fg.controls[c]];
    }
  }

  // ----- hpSwitchHandler -----

  /** p is one of the pins. */
  predicate PinOf(pins: seq<int>, p: int)
  {
    p > 0 && p in pins
  }

  /** Pin nid, plugged or not, has switched the pins: it is heard exactly when
      plugged, the others exactly when it is not, and nothing else changed. */
  ghost predicate HpSwitched(startNode: nat, ws: seq<Widget>, cs: seq<Control>, ws': seq<Widget>, cs': seq<Control>,
                             nid: int, pins: seq<int>, plugged: bool)
  {
    && Switched(ws, cs, ws', cs')
    && (forall m :: m != nid && !PinOf(pins, m) ==> Untouched(ws, cs, ws', cs', m))
    && (forall m :: 0 <= m < |ws| ==> ws'[m].sense == ws[m].sense && ws'[m].selconn == ws[m].selconn)
    && (startNode <= nid < |ws| && ws[nid].kind == PinComplex ==> Audible(ws', cs', nid) == plugged)
    && (forall p :: p != nid && PinOf(pins, p) && startNode <= p < |ws| && ws[p].kind == PinComplex ==>
          Audible(ws', cs', p) == !plugged)
  }

  lemma HpStarts(startNode: nat, ws: seq<Widget>, cs: seq<Control>, ws': seq<Widget>, cs': seq<Control>, nid: int,
                 plugged: bool)
    requires PinSet(startNode, ws, cs, ws', cs', nid, plugged)
    ensures HpSwitched(startNode, ws, cs, ws', cs', nid, [], plugged)
  {
  }

  lemma HpSkips(startNode: nat, ws: seq<Widget>, cs: seq<Control>, ws': seq<Widget>, cs': seq<Control>, nid: int,
                pins: seq<int>, j: nat, next: nat, plugged: bool)
    requires j < |pins| && next == j + 1 && HpSwitched(startNode, ws, cs, ws', cs', nid, pins[..j], plugged)
    requires pins[j] <= 0 || pins[j] == nid
    ensures HpSwitched(startNode, ws, cs, ws', cs', nid, pins[..next], plugged)
  {
    assert pins[..next] == pins[..j] + [pins[j]];
    assert forall p :: PinOf(pins[..j], p) ==> PinOf(pins[..next], p);
  }

  lemma HpNext(startNode: nat, ws: seq<Widget>, cs: seq<Control>, ws1: seq<Widget>, cs1: seq<Control>, ws2: seq<Widget>,
               cs2: seq<Control>, nid: int, pins: seq<int>, j: nat, next: nat, plugged: bool)
    requires j < |pins| && next == j + 1 && HpSwitched(startNode, ws, cs, ws1, cs1, nid, pins[..j], plugged)
    requires pins[j] > 0 && pins[j] != nid && PinSet(startNode, ws1, cs1, ws2, cs2, pins[j], !plugged)
    ensures HpSwitched(startNode, ws, cs, ws2, cs2, nid, pins[..next], plugged)
  {
    assert pins[..next] == pins[..j] + [pins[j]];
    SwitchedTwice(ws, cs, ws1, cs1, ws2, cs2);
    forall m | m != nid && !PinOf(pins[..next], m) ensures Untouched(ws, cs, ws2, cs2, m) {
      assert !PinOf(pins[..j], m) && m != pins[j];
      assert Untouched(ws, cs, ws1, cs1, m) && Untouched(ws1, cs1, ws2, cs2, m);
      forall c | 0 <= c < |cs| && cs[c].widget == m ensures cs2[c] == cs[c] {
        assert SameControl(cs[c], cs1[c]);
      }
    }
    HpOthers(startNode, ws1, cs1, ws2, cs2, nid, pins[j], !plugged);
    forall p | p != nid && PinOf(pins[..next], p) && startNode <= p < |ws| && ws[p].kind == PinComplex
      ensures Audible(ws2, cs2, p) == !plugged
    {
      assert SameNode(ws[p], ws1[p]);
      if p != pins[j] {
        assert PinOf(pins[..j], p);
        HpOthers(startNode, ws1, cs1, ws2, cs2, p, pins[j], !plugged);
      }
    }
  }

  lemma HpOthers(startNode: nat, ws1: seq<Widget>, cs1: seq<Control>, ws2: seq<Widget>, cs2: seq<Control>, m: int,
                 n: int, on: bool)
    requires PinSet(startNode, ws1, cs1, ws2, cs2, n, on) && m != n
    ensures 0 <= m < |ws1| ==> Audible(ws2, cs2, m) == Audible(ws1, cs1, m)
  {
    if 0 <= m < |ws1| {
      UntouchedAudible(ws1, cs1, ws2, cs2, m);
    }
  }

  /** hpSwitchHandler. */
  method HpSwitchHandler(fg: FunctionGroup, link: CodecLink, nid: nat, plugged: bool)
    requires fg.startNode <= nid < fg.widgets.Length && fg.widgets[nid].enable && fg.widgets[nid].kind == PinComplex
    requires 0 <= fg.widgets[nid].bindAssoc < fg.assocs.Length && AssocOk(fg.assocs[fg.widgets[nid].bindAssoc])
    requires ControlsReady(fg.widgets[..], fg.controls[..])
    requires CodecReady(fg.startNode, fg.widgets[..], fg.controls[..], link.log)
    modifies fg.widgets, fg.controls, link
    ensures HpSwitched(fg.startNode, old(fg.widgets[..]), old(fg.controls[..]), fg.widgets[..], fg.controls[..], nid,
                       fg.assocs[old(fg.widgets[nid]).bindAssoc].pins, plugged)
    ensures CodecReady(fg.startNode, fg.widgets[..], fg.controls[..], link.log)
  {
    ghost var ws, cs := fg.widgets[..], fg.controls[..];
    var pins := fg.assocs[fg.widgets[nid].bindAssoc].pins;
    SetPinAudible(fg, link, nid, plugged);
    HpStarts(fg.startNode, ws, cs, fg.widgets[..], fg.controls[..], nid, plugged);
    assert pins[..0] == [];
    var j := 0;
    while j < PINS
      invariant 0 <= j <= PINS
      invariant HpSwitched(fg.startNode, ws, cs, fg.widgets[..], fg.controls[..], nid, pins[..j], plugged)
      invariant CodecReady(fg.startNode, fg.widgets[..], fg.controls[..], link.log)
    {
      ghost var ws1, cs1, k := fg.widgets[..], fg.controls[..], j;
      var pin := pins[j];
      if pin <= 0 || pin == nid {
        j := j + 1;
        HpSkips(fg.startNode, ws, cs, ws1, cs1, nid, pins, k, j, plugged);
      } else {
        ControlsStayReady(ws, cs, ws1, cs1);
        SetPinAudible(fg, link, pin, !plugged);
        j := j + 1;
        HpNext(fg.startNode, ws, cs, ws1, cs1, fg.widgets[..], fg.controls[..], nid, pins, k, j, plugged);
      }
    }
    assert pins[..j] == pins;
  }
}
