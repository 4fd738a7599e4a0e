/** audioCommit: brings the codec's amplifiers, selectors and pins to the state
    of the tables. */
module CodecCommit {
  import opened HdaGraph
  import opened Configuration
  import opened Amplifiers

  predicate AllInRange(cs: seq<Control>)
  {
    forall c :: 0 <= c < |cs| ==> LevelsInRange(cs[c])
  }

  // ----- audioCtlCommit -----

  function ZeroGain(c: Control): nat
  {
    if c.offset > c.step then c.step else c.offset
  }

  /** A disabled control, and one the mixer will set later (`oss`), is muted;
      the others go to 0 dB. */
  function Committed(c: Control, oss: bool): Control
  {
    if !c.enable || oss then c.(muted := (true, true), left := 0, right := 0)
    else c.(muted := (false, false), left := ZeroGain(c), right := ZeroGain(c))
  }

  /** Controls below n have been committed. */
  ghost predicate CommittedUpTo(cs: seq<Control>, cs': seq<Control>, oss: seq<bool>, log: seq<Verb>, n: nat)
    requires |oss| == |cs|
  {
    && |cs'| == |cs|
    && (forall c :: 0 <= c < n && c < |cs| ==> cs'[c] == Committed(cs[c], oss[c]) && Mirrors(log, cs'[c]))
    && (forall c :: n <= c < |cs| ==> cs'[c] == cs[c])
  }

  lemma CommittedNext(cs: seq<Control>, cs1: seq<Control>, cs2: seq<Control>, oss: seq<bool>, log: seq<Verb>,
                      log': seq<Verb>, n: nat, next: nat)
    requires |oss| == |cs| && n < |cs| && next == n + 1 && DistinctAmps(cs)
    requires CommittedUpTo(cs, cs1, oss, log, n)
    requires cs2 == cs1[n := Committed(cs[n], oss[n])] && Written(log, log', cs2[n])
    ensures CommittedUpTo(cs, cs2, oss, log', next)
  {
    forall c | 0 <= c < next ensures Mirrors(log', cs2[c]) {
      WrittenMirrors(log, log', cs2[n], cs2[c]);
      if c < n {
        assert !SameAmp(cs[c], cs[n]);
      }
    }
  }

  method AudioCtlCommit(fg: FunctionGroup, link: CodecLink, oss: seq<bool>)
    requires |oss| == fg.controls.Length && AllInRange(fg.controls[..]) && DistinctAmps(fg.controls[..])
    modifies fg.controls, link
    ensures CommittedUpTo(old(fg.controls[..]), fg.controls[..], oss, link.log, fg.controls.Length)
  {
    ghost var cs := fg.controls[..];
    var i := 0;
    while i < fg.controls.Length
      invariant 0 <= i <= fg.controls.Length
      invariant CommittedUpTo(cs, fg.controls[..], oss, link.log, i)
    {
      ghost var cs1, log, k := fg.controls[..], link.log, i;
      var c := fg.controls[i];
      assert LevelsInRange(cs[i]);
      if !c.enable || oss[i] {
        AudioCtlAmpSet(fg, link, i, Some((true, true)), 0, 0);
      } else {
        var z := if c.offset > c.step then c.step else c.offset;
        AudioCtlAmpSet(fg, link, i, Some((false, false)), z, z);
      }
      i := i + 1;
      CommittedNext(cs, cs1, fg.controls[..], oss, log, link.log, k, i);
    }
  }

  // ----- Output amplifiers of output pins -----

  /** A disabled output amplifier of a line-out, speaker or headphone pin. */
  predicate PassesAudio(ws: seq<Widget>, c: Control)
  {
    && !c.enable && c.dir == Out && c.widget < |ws| && ws[c.widget].kind == PinComplex
    && Device(ws[c.widget].config) in {0, 1, 2}
  }

  ghost predicate Opened(log: seq<Verb>, c: Control)
  {
    forall right :: AmpOfControl(log, c, right) == Amp(false, ZeroGain(c))
  }

  ghost predicate OpenedUpTo(ws: seq<Widget>, cs: seq<Control>, log: seq<Verb>, n: nat)
  {
    forall c :: 0 <= c < |cs| ==> if c < n && PassesAudio(ws, cs[c]) then Opened(log, cs[c]) else Mirrors(log, cs[c])
  }

  method OpenOutputPins(fg: FunctionGroup, link: CodecLink)
    requires AllInRange(fg.controls[..]) && DistinctAmps(fg.controls[..])
    requires forall c :: 0 <= c < fg.controls.Length ==> fg.controls[c].widget < fg.widgets.Length
    requires OpenedUpTo(fg.widgets[..], fg.controls[..], link.log, 0)
    modifies link
    ensures OpenedUpTo(fg.widgets[..], fg.controls[..], link.log, fg.controls.Length)
  {
    ghost var ws, cs := fg.widgets[..], fg.controls[..];
    var i := 0;
    while i < fg.controls.Length
      invariant 0 <= i <= fg.controls.Length
      invariant OpenedUpTo(ws, cs, link.log, i)
    {
      ghost var log, k := link.log, i;
      var c := fg.controls[i];
      var w := fg.widgets[c.widget];
      if !c.enable && c.dir == Out && w.kind == PinComplex && Device(w.config) in {0, 1, 2} {
        assert LevelsInRange(cs[i]);
        var z := if c.offset > c.step then c.step else c.offset;
        AudioCtlAmpSetInternal(link, c.widget, c.index, false, false, z, z, Out);
        OpenedNext(ws, cs, log, link.log, k);
      }
      i := i + 1;
    }
  }

  lemma OpenedNext(ws: seq<Widget>, cs: seq<Control>, log: seq<Verb>, log': seq<Verb>, n: nat)
    requires n < |cs| && PassesAudio(ws, cs[n]) && DistinctAmps(cs) && OpenedUpTo(ws, cs, log, n)
    requires forall nid, dir, index: nat, right :: AmpAt(log', nid, dir, index, right) ==
               if AmpOf(cs[n], nid, dir, index) then Amp(false, ZeroGain(cs[n])) else AmpAt(log, nid, dir, index, right)
    ensures OpenedUpTo(ws, cs, log', n + 1)
  {
    forall c | 0 <= c < |cs|
      ensures if c < n + 1 && PassesAudio(ws, cs[c]) then Opened(log', cs[c]) else Mirrors(log', cs[c])
    {
      forall right
        ensures AmpOfControl(log', cs[c], right) ==
                if SameAmp(cs[n], cs[c]) then Amp(false, ZeroGain(cs[n])) else AmpOfControl(log, cs[c], right)
      {
        assert AmpAt(log', cs[c].widget, cs[c].dir, AmpIndex(cs[c]), right) == AmpOfControl(log', cs[c], right);
      }
      if c < n {
        assert !SameAmp(cs[c], cs[n]);
      } else if c > n {
        assert !SameAmp(cs[n], cs[c]);
      }
    }
  }

  // ----- Selectors and pins -----

  predicate KeptAmps(log: seq<Verb>, log': seq<Verb>, nid: int, dir: Dir, index: nat, right: bool)
  {
    AmpAt(log', nid, dir, index, right) == AmpAt(log, nid, dir, index, right)
  }

  ghost predicate SameAmps(log: seq<Verb>, log': seq<Verb>)
  {
    forall nid, dir, index: nat, right :: KeptAmps(log, log', nid, dir, index, right)
  }

  lemma NoAmpVerb(log: seq<Verb>, v: Verb)
    requires !v.SetAmp?
    ensures SameAmps(log, log + [v])
    ensures forall n :: CtrlAt(log + [v], n) == if v.SetPinCtrl? && n == v.nid then (true, v.ctrl) else CtrlAt(log, n)
    ensures forall n :: SelectedAt(log + [v], n) == if v.SelectConn? && n == v.nid then v.index else SelectedAt(log, n)
  {
    LogGrows(log, v);
  }

  lemma SameAmpsOpened(ws: seq<Widget>, cs: seq<Control>, log: seq<Verb>, log': seq<Verb>, n: nat)
    requires OpenedUpTo(ws, cs, log, n) && SameAmps(log, log')
    ensures OpenedUpTo(ws, cs, log', n)
  {
    forall c | 0 <= c < |cs|
      ensures if c < n && PassesAudio(ws, cs[c]) then Opened(log', cs[c]) else Mirrors(log', cs[c])
    {
      forall right
        ensures AmpOfControl(log', cs[c], right) == AmpOfControl(log, cs[c], right)
      {
        assert KeptAmps(log, log', cs[c].widget, cs[c].dir, AmpIndex(cs[c]), right);
      }
    }
  }

  /** widgetConnectionSelect. */
  method WidgetConnectionSelect(fg: FunctionGroup, link: CodecLink, n: nat, index: int)
    requires n < fg.widgets.Length && index >= 0
    modifies fg.widgets, link
    ensures fg.widgets[..] ==
            if index < |old(fg.widgets[n]).conns| then old(fg.widgets[..])[n := old(fg.widgets[n]).(selconn := index)]
            else old(fg.widgets[..])
    ensures SameAmps(old(link.log), link.log)
    ensures forall m :: CtrlAt(link.log, m) == CtrlAt(old(link.log), m)
    ensures forall m :: SelectedAt(link.log, m) ==
              if m == n && index < |old(fg.widgets[n]).conns| then index else SelectedAt(old(link.log), m)
  {
    if |fg.widgets[n].conns| < 1 || index > |fg.widgets[n].conns| - 1 {
      return;
    }
    NoAmpVerb(link.log, SelectConn(n, index));
    link.SendCommand(SelectConn(n, index));
    fg.widgets[n] := fg.widgets[n].(selconn := index);
  }

  /** A widget after the commit: an undecided selection becomes the first; a
      selection passes through an eight-bit parameter on its way. */
  function Decided(w: Widget): Widget
  {
    var s := if w.selconn == -1 then 0 else w.selconn;
    w.(selconn := if s % 0x100 < |w.conns| then s % 0x100 else s)
  }

  ghost predicate DecidedUpTo(ws: seq<Widget>, ws': seq<Widget>, log: seq<Verb>, startNode: nat, n: nat)
  {
    && |ws'| == |ws|
    && (forall m :: 0 <= m < |ws| ==> ws'[m] == if startNode <= m < n then Decided(ws[m]) else ws[m])
    && (forall m :: startNode <= m < n && m < |ws| && ws[m].kind == PinComplex ==> CtrlAt(log, m) == (true, ws[m].ctrl))
    && (forall m :: startNode <= m < n && m < |ws| && 0 <= ws'[m].selconn < |ws[m].conns| ==>
         SelectedAt(log, m) == ws'[m].selconn)
  }

  lemma DecidedNext(ws: seq<Widget>, ws1: seq<Widget>, ws2: seq<Widget>, log: seq<Verb>, log': seq<Verb>,
                    startNode: nat, n: nat, next: nat)
    requires DecidedUpTo(ws, ws1, log, startNode, n) && startNode <= n < |ws| && next == n + 1
    requires ws2 == ws1[n := Decided(ws[n])]
    requires forall m :: CtrlAt(log', m) ==
               if m == n && ws[n].kind == PinComplex then (true, ws[n].ctrl) else CtrlAt(log, m)
    requires forall m :: SelectedAt(log', m) ==
               if m == n && 0 <= ws2[n].selconn < |ws[n].conns| then ws2[n].selconn else SelectedAt(log, m)
    ensures DecidedUpTo(ws, ws2, log', startNode, next)
  {
  }

  lemma SameAmpsTwice(log: seq<Verb>, log1: seq<Verb>, log2: seq<Verb>)
    requires SameAmps(log, log1) && SameAmps(log1, log2)
    ensures SameAmps(log, log2)
  {
    forall nid, dir, index: nat, right ensures KeptAmps(log, log2, nid, dir, index, right) {
      assert KeptAmps(log, log1, nid, dir, index, right) && KeptAmps(log1, log2, nid, dir, index, right);
    }
  }

  /** One widget: its selection and, for a pin, its control word. */
  method CommitWidget(fg: FunctionGroup, link: CodecLink, i: nat)
    requires i < fg.widgets.Length
    modifies fg.widgets, link
    ensures fg.widgets[..] == old(fg.widgets[..])[i := Decided(old(fg.widgets[i]))]
    ensures SameAmps(old(link.log), link.log)
    ensures forall m :: CtrlAt(link.log, m) ==
              if m == i && fg.widgets[i].kind == PinComplex then (true, fg.widgets[i].ctrl)
              else CtrlAt(old(link.log), m)
    ensures forall m :: SelectedAt(link.log, m) ==
              if m == i && 0 <= fg.widgets[i].selconn < |fg.widgets[i].conns| then fg.widgets[i].selconn
              else SelectedAt(old(link.log), m)
  {
    ghost var log := link.log;
    if fg.widgets[i].selconn == -1 {
      fg.widgets[i] := fg.widgets[i].(selconn := 0);
    }
    if |fg.widgets[i].conns| > 0 {
      WidgetConnectionSelect(fg, link, i, fg.widgets[i].selconn % 0x100);
    }
    if fg.widgets[i].kind == PinComplex {
      ghost var log1 := link.log;
      NoAmpVerb(log1, SetPinCtrl(i, fg.widgets[i].ctrl));
      link.SendCommand(SetPinCtrl(i, fg.widgets[i].ctrl));
      SameAmpsTwice(log, log1, link.log);
    }
  }

  method CommitWidgets(fg: FunctionGroup, link: CodecLink)
    requires fg.startNode <= fg.widgets.Length
    modifies fg.widgets, link
    ensures DecidedUpTo(old(fg.widgets[..]), fg.widgets[..], link.log, fg.startNode, fg.widgets.Length)
    ensures SameAmps(old(link.log), link.log)
  {
    ghost var ws, log := fg.widgets[..], link.log;
    var i := fg.startNode;
    while i < fg.widgets.Length
      invariant fg.startNode <= i <= fg.widgets.Length
      invariant DecidedUpTo(ws, fg.widgets[..], link.log, fg.startNode, i)
      invariant SameAmps(log, link.log)
    {
      ghost var ws1, log1, k := fg.widgets[..], link.log, i;
      CommitWidget(fg, link, i);
      SameAmpsTwice(log, log1, link.log);
      i := i + 1;
      DecidedNext(ws, ws1, fg.widgets[..], log1, link.log, fg.startNode, k, i);
    }
  }

  // ----- audioCommit -----

  /** The codec is in the state of the tables, but the disabled output
      amplifiers of output pins are open at 0 dB. */
  ghost predicate CodecReady(startNode: nat, ws: seq<Widget>, cs: seq<Control>, log: seq<Verb>)
  {
    PinsMirrored(ws, log, startNode) && SelectionsMirrored(ws, log, startNode) && OpenedUpTo(ws, cs, log, |cs|)
  }

  /** What the codec and the record of control c hold after the commit, both
      channels alike: an enabled control that the mixer does not set is open, at
      0 dB or the highest gain below, unless it is forced mute; so is the output
      amplifier of a disabled control on a line-out, speaker or headphone pin; any
      other amplifier is muted at gain 0. */
  ghost predicate AmpCommitted(ws: seq<Widget>, c: Control, c': Control, oss: bool, log: seq<Verb>, right: bool)
  {
    var amp := AmpAt(log, c.widget, c.dir, c.index % 16, right);
    var open := Amp(false, if c.offset < c.step then c.offset else c.step);
    && (if c.enable then
          amp == if oss || c.forcemute then Amp(true, 0) else open
        else if c.dir == Out && c.widget < |ws| && ws[c.widget].kind == PinComplex
                && Device(ws[c.widget].config) in {0, 1, 2} then
          amp == open
        else
          amp == Amp(true, 0))
    && (if c.enable && !oss then c' == c.(muted := (false, false), left := open.gain, right := open.gain)
        else c' == c.(muted := (true, true), left := 0, right := 0))
  }

  ghost predicate AmpsCommitted(ws: seq<Widget>, cs: seq<Control>, cs': seq<Control>, oss: seq<bool>, log: seq<Verb>)
  {
    |cs'| == |cs| == |oss|
    && forall c, right :: 0 <= c < |cs| ==> AmpCommitted(ws, cs[c], cs'[c], oss[c], log, right)
  }

  /** The verbs the pins and selectors were last sent: a pin its control word, a
      widget with connections its selection, or its first connection for none. */
  ghost predicate NodesCommitted(startNode: nat, ws: seq<Widget>, ws': seq<Widget>, log: seq<Verb>)
  {
    |ws'| == |ws| && forall n :: startNode <= n < |ws| ==> NodeCommitted(ws[n], ws'[n], log, n)
  }

  predicate NodeCommitted(w: Widget, w': Widget, log: seq<Verb>, n: int)
  {
    && w' == w.(selconn := w'.selconn)
    && (w.kind == PinComplex ==> CtrlAt(log, n) == (true, w.ctrl))
    && (w.selconn == -1 && |w.conns| > 0 ==> SelectedAt(log, n) == 0 && w'.selconn == 0)
    && (0 <= w.selconn < |w.conns| && w.selconn < 256 ==> SelectedAt(log, n) == w.selconn && w'.selconn == w.selconn)
  }

  lemma CommittedAmps(startNode: nat, ws: seq<Widget>, cs: seq<Control>, ws': seq<Widget>, cs': seq<Control>,
                      oss: seq<bool>, log: seq<Verb>)
    requires |ws'| == |ws| && |cs'| == |cs| == |oss| && OpenedUpTo(ws', cs', log, |cs|)
    requires forall n :: 0 <= n < |ws| ==> ws'[n].kind == ws[n].kind && ws'[n].config == ws[n].config
    requires forall c :: 0 <= c < |cs| ==> cs'[c] == Committed(cs[c], oss[c])
    ensures AmpsCommitted(ws, cs, cs', oss, log)
  {
    forall c, right | 0 <= c < |cs| ensures AmpCommitted(ws, cs[c], cs'[c], oss[c], log, right) {
      assert AmpAt(log, cs[c].widget, cs[c].dir, cs[c].index % 16, right) == AmpOfControl(log, cs'[c], right);
      assert if PassesAudio(ws', cs'[c]) then Opened(log, cs'[c]) else Mirrors(log, cs'[c]);
    }
  }

  lemma DecidedNodes(startNode: nat, ws: seq<Widget>, ws': seq<Widget>, log: seq<Verb>)
    requires DecidedUpTo(ws, ws', log, startNode, |ws|)
    ensures NodesCommitted(startNode, ws, ws', log)
  {
  }

  method AudioCommit(fg: FunctionGroup, link: CodecLink, oss: seq<bool>)
    requires ConfigOk(fg.startNode, ConfigOf(fg)) && |oss| == fg.controls.Length
    requires AllInRange(fg.controls[..]) && DistinctAmps(fg.controls[..])
    modifies fg.widgets, fg.controls, link
    ensures forall n :: 0 <= n < fg.widgets.Length ==>
              fg.widgets[n] == if n < fg.startNode then old(fg.widgets[n]) else Decided(old(fg.widgets[n]))
    ensures forall c :: 0 <= c < fg.controls.Length ==> fg.controls[c] == Committed(old(fg.controls[c]), oss[c])
    ensures CodecReady(fg.startNode, fg.widgets[..], fg.controls[..], link.log)
    ensures AmpsCommitted(old(fg.widgets[..]), old(fg.controls[..]), fg.controls[..], oss, link.log)
    ensures NodesCommitted(fg.startNode, old(fg.widgets[..]), fg.widgets[..], link.log)
  {
    ghost var g := ConfigOf(fg);
    AudioCtlCommit(fg, link, oss);
    CommittedInRange(g.cs, fg.controls[..], oss);
    forall c | 0 <= c < fg.controls.Length ensures fg.controls[c].widget < fg.widgets.Length {
      assert ControlOk(g.ws, g.cs[c]);
    }
    OpenOutputPins(fg, link);
    ghost var log := link.log;
    CommitWidgets(fg, link);
    SameAmpsOpened(g.ws, fg.controls[..], log, link.log, fg.controls.Length);
    OpenedSame(g.ws, fg.widgets[..], fg.controls[..], link.log);
    CommittedAmps(fg.startNode, g.ws, g.cs, fg.widgets[..], fg.controls[..], oss, link.log);
    DecidedNodes(fg.startNode, g.ws, fg.widgets[..], link.log);
  }

  lemma CommittedInRange(cs: seq<Control>, cs': seq<Control>, oss: seq<bool>)
    requires |oss| == |cs| == |cs'| && AllInRange(cs) && DistinctAmps(cs)
    requires forall c :: 0 <= c < |cs| ==> cs'[c] == Committed(cs[c], oss[c])
    ensures AllInRange(cs') && DistinctAmps(cs')
  {
    forall c | 0 <= c < |cs| ensures LevelsInRange(cs'[c]) {
      assert LevelsInRange(cs[c]);
    }
    forall c, d | 0 <= c < d < |cs| ensures !SameAmp(cs'[c], cs'[d]) {
      assert !SameAmp(cs[c], cs[d]);
    }
  }

  lemma OpenedSame(ws: seq<Widget>, ws': seq<Widget>, cs: seq<Control>, log: seq<Verb>)
    requires |ws'| == |ws| && forall n :: 0 <= n < |ws| ==> ws'[n].kind == ws[n].kind && ws'[n].config == ws[n].config
    requires OpenedUpTo(ws, cs, log, |cs|)
    ensures OpenedUpTo(ws', cs, log, |cs|)
  {
    forall c | 0 <= c < |cs| ensures PassesAudio(ws', cs[c]) == PassesAudio(ws, cs[c]) {
    }
  }

  // ----- What is silent in the codec -----

  /** The records of disabled controls stay silent through the commit. */
  lemma CommitSilent(cs: seq<Control>, cs': seq<Control>, oss: seq<bool>)
    requires |oss| == |cs| == |cs'| && DisabledSilent(cs)
    requires forall c :: 0 <= c < |cs| ==> cs'[c] == Committed(cs[c], oss[c])
    ensures DisabledSilent(cs')
    ensures forall c :: 0 <= c < |cs| && !cs[c].enable ==> cs'[c] == cs[c]
  {
  }

  /** In the codec a disabled control's amplifier is muted at zero gain exactly
      when it is not the output amplifier of a line-out, speaker or headphone
      pin. */
  lemma DisabledAmpSilent(startNode: nat, ws: seq<Widget>, cs: seq<Control>, log: seq<Verb>, c: nat)
    requires CodecReady(startNode, ws, cs, log) && DisabledSilent(cs)
    requires c < |cs| && !cs[c].enable
    ensures (forall right :: AmpOfControl(log, cs[c], right) == Amp(true, 0)) <==>
            !PassesAudio(ws, cs[c])
  {
    if PassesAudio(ws, cs[c]) {
      assert Opened(log, cs[c]);
      assert AmpOfControl(log, cs[c], true) == Amp(false, ZeroGain(cs[c]));
    } else {
      assert Mirrors(log, cs[c]) && cs[c] == Silenced(cs[c]);
    }
  }

  /** The silenced output amplifier of a speaker pin, and the verb that audioCommit
      sends last for it: the pin is open at 0 dB. */
  lemma DisabledAmpHeard() returns (ws: seq<Widget>, cs: seq<Control>, log: seq<Verb>)
    ensures |cs| == 1 && !cs[0].enable && DisabledSilent(cs) && CodecReady(1, ws, cs, log)
    ensures AmpOfControl(log, cs[0], false) == Amp(false, 0x57)
  {
    var pin := Widget(PinComplex, true, [], [], 0, 0, 0, {0}, {Out}, false, 0, 0x9017_0110, 0, false, 0, 0);
    var c := Control(1, -1, true, 0, Out, Out, true, 0x57, 0x57, false, (false, false), 0, 0);
    ws, cs := [pin.(enable := false), pin], [Silenced(c)];
    var open := AmpWrite(Out, true, true, 0, false, 0x57);
    PayloadFields(open);
    log := [SetPinCtrl(1, 0), SetAmp(1, Payload(open))];
    assert log[..|log| - 1] == [SetPinCtrl(1, 0)];
    assert Opened(log, cs[0]);
  }
}
