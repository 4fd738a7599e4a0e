/** micSwitchHandler: a jack of a recording association mutes and unmutes the
    inputs of the association's mixers and moves its selectors. */
module MicSwitch {
  import opened HdaGraph
  import opened Configuration
  import opened Amplifiers
  import opened PruningPasses
  import opened CodecCommit
  import opened JackSwitch

  predicate Shares(mask: set<int>, other: set<int>)
  {
    exists b :: b in mask && b in other
  }

  /** Connection i of widget j is one the handler switches. */
  predicate MicEdge(ws: seq<Widget>, a: int, j: int, i: int)
  {
    && 0 <= j < |ws| && ws[j].enable && ws[j].bindAssoc == a && ws[j].connsenabled >= 2
    && Enabled(ws[j], i) && 0 <= ws[j].conns[i] < |ws|
    && !(ws[ws[j].conns[i]].kind == Mixer && !ws[ws[j].conns[i]].monitor)
  }

  /** The connection carries a pin of the mask. */
  predicate EdgeCarries(ws: seq<Widget>, j: int, i: int, mask: set<int>)
    requires 0 <= j < |ws| && 0 <= i < |ws[j].conns| && 0 <= ws[j].conns[i] < |ws|
  {
    Shares(ws[ws[j].conns[i]].bindSeqMask, mask)
  }

  /** The connection a selector is switched to by its first n connections: the
      last that carries the jack when it is plugged, that does not when it is
      not; where it stood if there is none. */
  function LastWanted(ws: seq<Widget>, a: int, j: int, jack: set<int>, plugged: bool, n: nat): int
    requires 0 <= j < |ws| && n <= |ws[j].conns|
  {
    if n == 0 then ws[j].selconn
    else if MicEdge(ws, a, j, n - 1) && EdgeCarries(ws, j, n - 1, jack) == plugged then n - 1
    else LastWanted(ws, a, j, jack, plugged, n - 1)
  }

  predicate Wanted(ws: seq<Widget>, a: int, j: int, i: int, jack: set<int>, plugged: bool)
  {
    MicEdge(ws, a, j, i) && EdgeCarries(ws, j, i, jack) == plugged
  }

  lemma {:induction false} LastWantedMeans(ws: seq<Widget>, a: int, j: int, jack: set<int>, plugged: bool, n: nat)
    requires 0 <= j < |ws| && n <= |ws[j].conns|
    ensures var s := LastWanted(ws, a, j, jack, plugged, n);
            && (forall i :: 0 <= i < n && Wanted(ws, a, j, i, jack, plugged) ==>
                 i <= s < n && Wanted(ws, a, j, s, jack, plugged))
            && ((forall i :: 0 <= i < n ==> !Wanted(ws, a, j, i, jack, plugged)) ==> s == ws[j].selconn)
  {
    if n > 0 {
      LastWantedMeans(ws, a, j, jack, plugged, n - 1);
      if !Wanted(ws, a, j, n - 1, jack, plugged) {
        assert LastWanted(ws, a, j, jack, plugged, n) == LastWanted(ws, a, j, jack, plugged, n - 1);
      }
    }
  }

  // ----- Which control belongs to a connection -----

  lemma {:induction false} SameMatches(cs: seq<Control>, cs': seq<Control>, nid: int, dir: Dir, index: int, n: int)
    requires |cs'| == |cs| && n <= |cs| && forall c :: 0 <= c < |cs| ==> SameControl(cs[c], cs'[c])
    ensures MatchCount(cs', nid, dir, index, n) == MatchCount(cs, nid, dir, index, n)
  {
    if n > 0 {
      SameMatches(cs, cs', nid, dir, index, n - 1);
      assert SameControl(cs[n - 1], cs'[n - 1]);
    }
  }

  lemma SameNth(cs: seq<Control>, cs': seq<Control>, nid: int, dir: Dir, index: int, c: int)
    requires |cs'| == |cs| && forall d :: 0 <= d < |cs| ==> SameControl(cs[d], cs'[d])
    ensures IsNth(cs', nid, dir, index, 1, c) == IsNth(cs, nid, dir, index, 1, c)
  {
    if 0 <= c < |cs| {
      SameMatches(cs, cs', nid, dir, index, c);
      assert SameControl(cs[c], cs'[c]);
    }
  }

  lemma OneNth(cs: seq<Control>, nid: int, dir: Dir, index: int, c: int, d: int)
    requires IsNth(cs, nid, dir, index, 1, c) && IsNth(cs, nid, dir, index, 1, d)
    ensures c == d
  {
    MatchCountZero(cs, nid, dir, index, c);
    MatchCountZero(cs, nid, dir, index, d);
  }

  /** The control of connection i of mixer j, if there is one, is forced mute
      unless on; cs tells which control that is. */
  ghost predicate EdgeForced(cs: seq<Control>, cs1: seq<Control>, cs2: seq<Control>, j: int, i: int, on: bool)
  {
    && |cs1| == |cs| && |cs2| == |cs|
    && forall c :: 0 <= c < |cs| ==>
         cs2[c] == if IsNth(cs, j, In, i, 1, c) then cs1[c].(forcemute := !on) else cs1[c]
  }

  ghost predicate AllSame(cs: seq<Control>, cs': seq<Control>)
  {
    |cs'| == |cs| && forall c :: 0 <= c < |cs| ==> SameControl(cs[c], cs'[c])
  }

  lemma EdgeForcedBy(cs: seq<Control>, cs1: seq<Control>, cs2: seq<Control>, j: int, i: int, on: bool, found: int)
    requires AllSame(cs, cs1)
    requires found != -1 ==> IsNth(cs1, j, In, i, 1, found) && cs2 == cs1[found := cs1[found].(forcemute := !on)]
    requires found == -1 ==> MatchCount(cs1, j, In, i, |cs1|) == 0 && cs2 == cs1
    ensures EdgeForced(cs, cs1, cs2, j, i, on) && AllSame(cs, cs2)
  {
    forall c | 0 <= c < |cs|
      ensures cs2[c] == if IsNth(cs, j, In, i, 1, c) then cs1[c].(forcemute := !on) else cs1[c]
      ensures SameControl(cs[c], cs2[c])
    {
      assert SameControl(cs[c], cs1[c]);
      SameNth(cs, cs1, j, In, i, c);
      if IsNth(cs1, j, In, i, 1, c) {
        MatchCountZero(cs1, j, In, i, |cs1|);
        if found != -1 {
          OneNth(cs1, j, In, i, c, found);
        }
      }
    }
  }

  /** micSwitchHandlerEnableWidget for an enabled widget. */
  method EnableWidget(fg: FunctionGroup, link: CodecLink, j: nat, i: nat, on: bool, ghost cs: seq<Control>)
    requires j < fg.widgets.Length && fg.widgets[j].enable && i < |fg.widgets[j].conns|
    requires AllSame(cs, fg.controls[..]) && ControlsReady(fg.widgets[..], fg.controls[..])
    requires CodecReady(fg.startNode, fg.widgets[..], fg.controls[..], link.log)
    modifies fg.widgets, fg.controls, link
    ensures AllSame(cs, fg.controls[..])
    ensures if old(fg.widgets[j]).kind == Mixer then EdgeForced(cs, old(fg.controls[..]), fg.controls[..], j, i, on)
            else fg.controls[..] == old(fg.controls[..])
    ensures fg.widgets[..] ==
            if old(fg.widgets[j]).kind == Selector && on
            then old(fg.widgets[..])[j := old(fg.widgets[j]).(selconn := i)]
            else old(fg.widgets[..])
    ensures CodecReady(fg.startNode, fg.widgets[..], fg.controls[..], link.log)
  {
    ghost var ws1, cs1, log := fg.widgets[..], fg.controls[..], link.log;
    if fg.widgets[j].kind == Mixer {
      var c := AudioCtlAmpGet(fg, j, In, i, 1);
      if c != -1 {
        ForceMute(fg, link, c, !on);
      }
      EdgeForcedBy(cs, cs1, fg.controls[..], j, i, on, c);
    } else if fg.widgets[j].kind == Selector {
      if on {
        WidgetConnectionSelect(fg, link, j, i);
        SameAmpsOpened(ws1, cs1, log, link.log, |cs1|);
        OpenedSame(ws1, fg.widgets[..], cs1, link.log);
      }
    }
  }

  // ----- micSwitchHandler -----

  /** Connection i of widget j comes before (j0, i0) in the handler's order. */
  predicate Before(j: int, i: int, j0: int, i0: int)
  {
    j < j0 || (j == j0 && i < i0)
  }

  /** How many connections of widget j come before (j0, i0). */
  function SeenOf(ws: seq<Widget>, j: int, j0: int, i0: nat): nat
    requires 0 <= j < |ws| && (j == j0 ==> i0 <= |ws[j].conns|)
  {
    if j < j0 then |ws[j].conns| else if j == j0 then i0 else 0
  }

  /** What the handler may touch. */
  ghost predicate MicFrame(ws: seq<Widget>, cs: seq<Control>, ws': seq<Widget>, cs': seq<Control>, a: int)
  {
    && Switched(ws, cs, ws', cs')
    && (forall n :: 0 <= n < |ws| ==> ws'[n].ctrl == ws[n].ctrl && ws'[n].sense == ws[n].sense)
    && (forall n :: 0 <= n < |ws| && ws'[n].selconn != ws[n].selconn ==> ws[n].kind == Selector && ws[n].bindAssoc == a)
    && (forall c :: 0 <= c < |cs| && cs'[c] != cs[c] ==>
          0 <= cs[c].widget < |ws| && ws[cs[c].widget].kind == Mixer && ws[cs[c].widget].bindAssoc == a)
  }

  /** Control c amplifies connection i of mixer j, and no other. */
  predicate OwnAmp(ws: seq<Widget>, cs: seq<Control>, a: int, j: int, i: int, c: int)
  {
    MicEdge(ws, a, j, i) && ws[j].kind == Mixer && IsNth(cs, j, In, i, 1, c) && cs[c].dir == In
  }

  /** The connections before (j0, i0) are switched: a mixer input is mute
      exactly when it carries the default pin and the jack is plugged, or does
      not and the jack is not; a selector stands where LastWanted says. */
  ghost predicate MicSwitched(ws: seq<Widget>, cs: seq<Control>, ws': seq<Widget>, cs': seq<Control>, a: int,
                              jack: set<int>, def: set<int>, plugged: bool, j0: int, i0: nat)
    requires 0 <= j0 < |ws| ==> i0 <= |ws[j0].conns|
  {
    && MicFrame(ws, cs, ws', cs', a)
    && (forall j, i, c :: OwnAmp(ws, cs, a, j, i, c) && Before(j, i, j0, i0) ==>
          cs'[c].forcemute == (EdgeCarries(ws, j, i, def) == plugged))
    && (forall j :: 0 <= j < |ws| && ws[j].kind == Selector ==>
          ws'[j].selconn == LastWanted(ws, a, j, jack, plugged, SeenOf(ws, j, j0, i0)))
  }

  lemma MicStart(ws: seq<Widget>, cs: seq<Control>, a: int, jack: set<int>, def: set<int>, plugged: bool, j0: nat)
    requires forall n :: 0 <= n < j0 && n < |ws| ==> !ws[n].enable
    ensures MicSwitched(ws, cs, ws, cs, a, jack, def, plugged, j0, 0)
  {
    forall j | 0 <= j < |ws| && ws[j].kind == Selector
      ensures ws[j].selconn == LastWanted(ws, a, j, jack, plugged, SeenOf(ws, j, j0, 0))
    {
      LastWantedMeans(ws, a, j, jack, plugged, SeenOf(ws, j, j0, 0));
    }
  }

  /** A widget whose connections have all been seen. */
  lemma MicWidgetDone(ws: seq<Widget>, cs: seq<Control>, ws': seq<Widget>, cs': seq<Control>, a: int, jack: set<int>,
                      def: set<int>, plugged: bool, j: nat, next: nat)
    requires j < |ws| && next == j + 1
    requires MicSwitched(ws, cs, ws', cs', a, jack, def, plugged, j, |ws[j].conns|)
    ensures MicSwitched(ws, cs, ws', cs', a, jack, def, plugged, next, 0)
  {
    forall k, i, c | OwnAmp(ws, cs, a, k, i, c) && Before(k, i, next, 0)
      ensures cs'[c].forcemute == (EdgeCarries(ws, k, i, def) == plugged)
    {
      assert Before(k, i, j, |ws[j].conns|);
    }
  }

  /** A widget, or the rest of one, without a connection to switch. */
  lemma MicSkip(ws: seq<Widget>, cs: seq<Control>, ws': seq<Widget>, cs': seq<Control>, a: int, jack: set<int>,
                def: set<int>, plugged: bool, j: nat, i0: nat, i1: nat)
    requires j < |ws| && i0 <= i1 <= |ws[j].conns|
    requires MicSwitched(ws, cs, ws', cs', a, jack, def, plugged, j, i0)
    requires forall i :: i0 <= i < i1 ==> !MicEdge(ws, a, j, i)
    ensures MicSwitched(ws, cs, ws', cs', a, jack, def, plugged, j, i1)
  {
    SkipWanted(ws, a, j, jack, plugged, i0, i1);
    forall k, i, c | OwnAmp(ws, cs, a, k, i, c) && Before(k, i, j, i1)
      ensures cs'[c].forcemute == (EdgeCarries(ws, k, i, def) == plugged)
    {
      assert Before(k, i, j, i0);
    }
  }

  lemma {:induction false} SkipWanted(ws: seq<Widget>, a: int, j: nat, jack: set<int>, plugged: bool, i0: nat, i1: nat)
    requires j < |ws| && i0 <= i1 <= |ws[j].conns| && forall i :: i0 <= i < i1 ==> !MicEdge(ws, a, j, i)
    ensures LastWanted(ws, a, j, jack, plugged, i1) == LastWanted(ws, a, j, jack, plugged, i0)
  {
    if i0 < i1 {
      SkipWanted(ws, a, j, jack, plugged, i0, i1 - 1);
    }
  }

  lemma MicFrameNext(ws: seq<Widget>, cs: seq<Control>, ws1: seq<Widget>, cs1: seq<Control>, ws2: seq<Widget>,
                     cs2: seq<Control>, a: int, j: nat, i: nat, on: bool)
    requires MicFrame(ws, cs, ws1, cs1, a) && j < |ws| && ws[j].bindAssoc == a && AllSame(cs, cs2)
    requires if ws[j].kind == Mixer then EdgeForced(cs, cs1, cs2, j, i, on) else cs2 == cs1
    requires ws2 == if ws[j].kind == Selector && on then ws1[j := ws1[j].(selconn := i)] else ws1
    ensures MicFrame(ws, cs, ws2, cs2, a)
  {
    forall n | 0 <= n < |ws| ensures SameNode(ws[n], ws2[n]) && SameOtherBits(ws[n], ws2[n]) {
      assert SameNode(ws[n], ws1[n]) && SameOtherBits(ws[n], ws1[n]);
    }
  }

  /** A connection of a selector has been switched. */
  lemma MicSelectorNext(ws: seq<Widget>, cs: seq<Control>, ws1: seq<Widget>, cs1: seq<Control>, ws2: seq<Widget>,
                        a: int, jack: set<int>, def: set<int>, plugged: bool, j: nat, i: nat, next: nat)
    requires MicEdge(ws, a, j, i) && next == i + 1 && MicSwitched(ws, cs, ws1, cs1, a, jack, def, plugged, j, i)
    requires ws[j].kind == Selector && MicFrame(ws, cs, ws2, cs1, a)
    requires ws2 == if EdgeCarries(ws, j, i, jack) == plugged then ws1[j := ws1[j].(selconn := i)] else ws1
    ensures MicSwitched(ws, cs, ws2, cs1, a, jack, def, plugged, j, next)
  {
    forall k, m, c | OwnAmp(ws, cs, a, k, m, c) && Before(k, m, j, next)
      ensures cs1[c].forcemute == (EdgeCarries(ws, k, m, def) == plugged)
    {
      assert Before(k, m, j, i);
    }
  }

  /** A connection of a mixer has been switched. */
  lemma MicMixerNext(ws: seq<Widget>, cs: seq<Control>, ws1: seq<Widget>, cs1: seq<Control>, cs2: seq<Control>, a: int,
                     jack: set<int>, def: set<int>, plugged: bool, j: nat, i: nat, next: nat)
    requires MicEdge(ws, a, j, i) && next == i + 1 && MicSwitched(ws, cs, ws1, cs1, a, jack, def, plugged, j, i)
    requires ws[j].kind == Mixer && MicFrame(ws, cs, ws1, cs2, a)
    requires EdgeForced(cs, cs1, cs2, j, i, EdgeCarries(ws, j, i, def) != plugged)
    ensures MicSwitched(ws, cs, ws1, cs2, a, jack, def, plugged, j, next)
  {
    forall k, m, c | OwnAmp(ws, cs, a, k, m, c) && Before(k, m, j, next)
      ensures cs2[c].forcemute == (EdgeCarries(ws, k, m, def) == plugged)
    {
      if k == j && m == i {
        assert IsNth(cs, j, In, i, 1, c);
      } else {
        assert Before(k, m, j, i);
      }
    }
  }

  /** A connection of any other widget is left alone. */
  lemma MicOtherNext(ws: seq<Widget>, cs: seq<Control>, ws1: seq<Widget>, cs1: seq<Control>, a: int, jack: set<int>,
                     def: set<int>, plugged: bool, j: nat, i: nat, next: nat)
    requires MicEdge(ws, a, j, i) && next == i + 1 && MicSwitched(ws, cs, ws1, cs1, a, jack, def, plugged, j, i)
    requires ws[j].kind != Mixer && ws[j].kind != Selector
    ensures MicSwitched(ws, cs, ws1, cs1, a, jack, def, plugged, j, next)
  {
    forall k, m, c | OwnAmp(ws, cs, a, k, m, c) && Before(k, m, j, next)
      ensures cs1[c].forcemute == (EdgeCarries(ws, k, m, def) == plugged)
    {
      assert Before(k, m, j, i);
    }
  }

  lemma ForcedTwice(cs: seq<Control>, cs1: seq<Control>, cs2: seq<Control>, cs3: seq<Control>, j: int, i: int, on: bool,
                    on': bool)
    requires EdgeForced(cs, cs1, cs2, j, i, on) && EdgeForced(cs, cs2, cs3, j, i, on')
    ensures EdgeForced(cs, cs1, cs3, j, i, on')
  {
  }

  /** Connection i of widget j: first for the jack, and at a mixer, where it
      decides, for the default pin. */
  method SwitchEdge(fg: FunctionGroup, link: CodecLink, a: nat, j: nat, i: nat, jack: set<int>, def: set<int>,
                    plugged: bool, ghost ws: seq<Widget>, ghost cs: seq<Control>)
    requires MicEdge(ws, a, j, i) && MicSwitched(ws, cs, fg.widgets[..], fg.controls[..], a, jack, def, plugged, j, i)
    requires ControlsReady(fg.widgets[..], fg.controls[..])
    requires CodecReady(fg.startNode, fg.widgets[..], fg.controls[..], link.log)
    modifies fg.widgets, fg.controls, link
    ensures MicSwitched(ws, cs, fg.widgets[..], fg.controls[..], a, jack, def, plugged, j, i + 1)
    ensures CodecReady(fg.startNode, fg.widgets[..], fg.controls[..], link.log)
  {
    ghost var ws1, cs1, next := fg.widgets[..], fg.controls[..], i + 1;
    assert SameNode(ws[j], ws1[j]);
    var child := fg.widgets[fg.widgets[j].conns[i]];
    assert SameNode(ws[ws[j].conns[i]], child);
    var onJack := Shares(child.bindSeqMask, jack) == plugged;
    EnableWidget(fg, link, j, i, onJack, cs);
    ghost var ws2, cs2 := fg.widgets[..], fg.controls[..];
    MicFrameNext(ws, cs, ws1, cs1, ws2, cs2, a, j, i, onJack);
    if fg.widgets[j].kind == Mixer {
      ControlsStayReadyMic(ws, cs, ws1, cs1, ws2, cs2, a);
      var onDefault := Shares(child.bindSeqMask, def) != plugged;
      EnableWidget(fg, link, j, i, onDefault, cs);
      MicFrameNext(ws, cs, ws2, cs2, ws2, fg.controls[..], a, j, i, onDefault);
      ForcedTwice(cs, cs1, cs2, fg.controls[..], j, i, onJack, onDefault);
      MicMixerNext(ws, cs, ws1, cs1, fg.controls[..], a, jack, def, plugged, j, i, next);
    } else if fg.widgets[j].kind == Selector {
      MicSelectorNext(ws, cs, ws1, cs1, ws2, a, jack, def, plugged, j, i, next);
    } else {
      MicOtherNext(ws, cs, ws1, cs1, a, jack, def, plugged, j, i, next);
    }
  }

  lemma ControlsStayReadyMic(ws: seq<Widget>, cs: seq<Control>, ws1: seq<Widget>, cs1: seq<Control>, ws2: seq<Widget>,
                             cs2: seq<Control>, a: int)
    requires MicFrame(ws, cs, ws1, cs1, a) && MicFrame(ws, cs, ws2, cs2, a) && ControlsReady(ws1, cs1)
    ensures ControlsReady(ws2, cs2)
  {
    forall c | 0 <= c < |cs1| ensures LevelsInRange(cs2[c]) && cs2[c].widget < |ws2| {
      assert SameControl(cs[c], cs1[c]) && SameControl(cs[c], cs2[c]) && LevelsInRange(cs1[c]);
    }
    forall c, d | 0 <= c < d < |cs2| ensures !SameAmp(cs2[c], cs2[d]) {
      assert SameControl(cs[c], cs1[c]) && SameControl(cs[d], cs1[d]) && SameControl(cs[c], cs2[c]);
      assert SameControl(cs[d], cs2[d]);
      assert !SameAmp(cs1[c], cs1[d]);
    }
  }

  /** The handler's loop invariant. */
  ghost predicate MicState(startNode: nat, ws: seq<Widget>, cs: seq<Control>, ws': seq<Widget>, cs': seq<Control>,
                           log: seq<Verb>, a: int, jack: set<int>, def: set<int>, plugged: bool, j0: int, i0: nat)
    requires 0 <= j0 < |ws| ==> i0 <= |ws[j0].conns|
  {
    MicSwitched(ws, cs, ws', cs', a, jack, def, plugged, j0, i0) && CodecReady(startNode, ws', cs', log)
  }

  /** The n connections of widget j. */
  method SwitchWidget(fg: FunctionGroup, link: CodecLink, a: nat, j: nat, n: nat, jack: set<int>, def: set<int>,
                      plugged: bool, ghost ws: seq<Widget>, ghost cs: seq<Control>)
    requires j < |ws| && n == |ws[j].conns|
    requires MicState(fg.startNode, ws, cs, fg.widgets[..], fg.controls[..], link.log, a, jack, def, plugged, j, 0)
    requires ControlsReady(ws, cs) && ws[j].enable && ws[j].bindAssoc == a && ws[j].connsenabled >= 2 && WidgetOk(ws[j])
    requires forall i :: Enabled(ws[j], i) ==> 0 <= ws[j].conns[i] < |ws|
    modifies fg.widgets, fg.controls, link
    ensures MicState(fg.startNode, ws, cs, fg.widgets[..], fg.controls[..], link.log, a, jack, def, plugged, j, n)
  {
    var i := 0;
    while i < n
      invariant 0 <= i <= n
      invariant MicState(fg.startNode, ws, cs, fg.widgets[..], fg.controls[..], link.log, a, jack, def, plugged, j, i)
    {
      SwitchOne(fg, link, a, j, i, jack, def, plugged, ws, cs);
      i := i + 1;
    }
  }

  /** Connection i of widget j, if it is to be switched. */
  method SwitchOne(fg: FunctionGroup, link: CodecLink, a: nat, j: nat, i: nat, jack: set<int>, def: set<int>,
                   plugged: bool, ghost ws: seq<Widget>, ghost cs: seq<Control>)
    requires j < |ws| && i < |ws[j].conns|
    requires MicState(fg.startNode, ws, cs, fg.widgets[..], fg.controls[..], link.log, a, jack, def, plugged, j, i)
    requires ControlsReady(ws, cs) && ws[j].enable && ws[j].bindAssoc == a && ws[j].connsenabled >= 2 && WidgetOk(ws[j])
    requires Enabled(ws[j], i) ==> 0 <= ws[j].conns[i] < |ws|
    modifies fg.widgets, fg.controls, link
    ensures MicState(fg.startNode, ws, cs, fg.widgets[..], fg.controls[..], link.log, a, jack, def, plugged, j, i + 1)
  {
    ghost var ws1, cs1, next := fg.widgets[..], fg.controls[..], i + 1;
    MicEdgeStays(ws, ws1, a, j, i);
    assert SameNode(ws[j], ws1[j]);
    var switches := Switches(fg, j, i);
    if switches {
      ControlsStayReady(ws, cs, ws1, cs1);
      SwitchEdge(fg, link, a, j, i, jack, def, plugged, ws, cs);
    } else {
      MicSkip(ws, cs, ws1, cs1, a, jack, def, plugged, j, i, next);
    }
  }

  /** Whether the handler switches connection i of widget j. */
  method Switches(fg: FunctionGroup, j: nat, i: nat) returns (switches: bool)
    requires j < fg.widgets.Length && fg.widgets[j].enable && fg.widgets[j].connsenabled >= 2 && WidgetOk(fg.widgets[j])
    requires i < |fg.widgets[j].conns|
    requires (Enabled(fg.widgets[j], i) ==> 0 <= fg.widgets[j].conns[i] < fg.widgets.Length)
    ensures switches <==> MicEdge(fg.widgets[..], fg.widgets[j].bindAssoc, j, i)
  {
    if !fg.widgets[j].connsenable[i] {
      return false;
    }
    var child := fg.widgets[fg.widgets[j].conns[i]];
    return !(child.kind == Mixer && !child.monitor);
  }

  lemma MicEdgeStays(ws: seq<Widget>, ws': seq<Widget>, a: int, j: nat, i: int)
    requires |ws'| == |ws| && j < |ws| && forall n :: 0 <= n < |ws| ==> SameNode(ws[n], ws'[n])
    ensures MicEdge(ws', a, j, i) == MicEdge(ws, a, j, i)
    ensures ws'[j].bindAssoc == ws[j].bindAssoc && ws'[j].conns == ws[j].conns
  {
    assert SameNode(ws[j], ws'[j]);
    if Enabled(ws[j], i) && 0 <= ws[j].conns[i] < |ws| {
      assert SameNode(ws[ws[j].conns[i]], ws'[ws[j].conns[i]]);
    }
  }

  /** What a jack event of an input pin does, said of the state before it. */
  ghost predicate MicSwitchedAll(ws: seq<Widget>, cs: seq<Control>, ws': seq<Widget>, cs': seq<Control>, a: int,
                                 jack: set<int>, def: set<int>, plugged: bool)
  {
    && MicFrame(ws, cs, ws', cs', a)
    && (forall j, i, c :: OwnAmp(ws, cs, a, j, i, c) ==> cs'[c].forcemute == (EdgeCarries(ws, j, i, def) == plugged))
    && (forall j :: 0 <= j < |ws| && ws[j].kind == Selector ==>
          ws'[j].selconn == LastWanted(ws, a, j, jack, plugged, |ws[j].conns|))
  }

  /** What a handler relies on in the widgets: connection lists in step with
      their enable bits, and no enabled connection to a missing node. */
  ghost predicate WidgetsReady(startNode: nat, ws: seq<Widget>)
  {
    && WidgetsOk(startNode, ws)
    && forall n, i :: 0 <= n < |ws| && Enabled(ws[n], i) && ws[n].enable ==> 0 <= ws[n].conns[i] < |ws|
  }

  /** micSwitchHandler. */
  method MicSwitchHandler(fg: FunctionGroup, link: CodecLink, nid: nat, plugged: bool)
    requires fg.startNode <= nid < fg.widgets.Length && fg.widgets[nid].enable && fg.widgets[nid].kind == PinComplex
    requires 0 <= fg.widgets[nid].bindAssoc < fg.assocs.Length && AssocOk(fg.assocs[fg.widgets[nid].bindAssoc])
    requires var asc := fg.assocs[fg.widgets[nid].bindAssoc];
             0 <= asc.defaultPin < PINS && 0 <= asc.pins[asc.defaultPin] < fg.widgets.Length
    requires WidgetsReady(fg.startNode, fg.widgets[..]) && ControlsReady(fg.widgets[..], fg.controls[..])
    requires CodecReady(fg.startNode, fg.widgets[..], fg.controls[..], link.log)
    modifies fg.widgets, fg.controls, link
    ensures var ws, a := old(fg.widgets[..]), old(fg.widgets[nid]).bindAssoc;
            MicSwitchedAll(ws, old(fg.controls[..]), fg.widgets[..], fg.controls[..], a, ws[nid].bindSeqMask,
                           ws[fg.assocs[a].pins[fg.assocs[a].defaultPin]].bindSeqMask, plugged)
    ensures CodecReady(fg.startNode, fg.widgets[..], fg.controls[..], link.log)
  {
    var a := fg.widgets[nid].bindAssoc;
    var jack := fg.widgets[nid].bindSeqMask;
    var def := fg.widgets[fg.assocs[a].pins[fg.assocs[a].defaultPin]].bindSeqMask;
    SwitchWidgets(fg, link, a, jack, def, plugged);
  }

  method SwitchWidgets(fg: FunctionGroup, link: CodecLink, a: nat, jack: set<int>, def: set<int>, plugged: bool)
    requires WidgetsReady(fg.startNode, fg.widgets[..]) && ControlsReady(fg.widgets[..], fg.controls[..])
    requires CodecReady(fg.startNode, fg.widgets[..], fg.controls[..], link.log)
    modifies fg.widgets, fg.controls, link
    ensures MicSwitchedAll(old(fg.widgets[..]), old(fg.controls[..]), fg.widgets[..], fg.controls[..], a, jack, def,
                           plugged)
    ensures CodecReady(fg.startNode, fg.widgets[..], fg.controls[..], link.log)
  {
    ghost var ws, cs := fg.widgets[..], fg.controls[..];
    var j := fg.startNode;
    MicStart(ws, cs, a, jack, def, plugged, j);
    while j < fg.widgets.Length
      invariant fg.startNode <= j <= fg.widgets.Length
      invariant MicState(fg.startNode, ws, cs, fg.widgets[..], fg.controls[..], link.log, a, jack, def, plugged, j, 0)
    {
      ghost var k := j;
      assert SameNode(ws[j], fg.widgets[j]) && WidgetOk(ws[j]);
      if fg.widgets[j].enable && fg.widgets[j].bindAssoc == a && fg.widgets[j].connsenabled >= 2 {
        SwitchWidget(fg, link, a, j, |fg.widgets[j].conns|, jack, def, plugged, ws, cs);
      } else {
        MicSkip(ws, cs, fg.widgets[..], fg.controls[..], a, jack, def, plugged, j, 0, |ws[j].conns|);
      }
      j := j + 1;
      MicWidgetDone(ws, cs, fg.widgets[..], fg.controls[..], a, jack, def, plugged, k, j);
    }
    MicAll(ws, cs, fg.widgets[..], fg.controls[..], a, jack, def, plugged);
  }

  lemma MicAll(ws: seq<Widget>, cs: seq<Control>, ws': seq<Widget>, cs': seq<Control>, a: int, jack: set<int>,
               def: set<int>, plugged: bool)
    requires MicSwitched(ws, cs, ws', cs', a, jack, def, plugged, |ws|, 0)
    ensures MicSwitchedAll(ws, cs, ws', cs', a, jack, def, plugged)
  {
    forall j, i, c | OwnAmp(ws, cs, a, j, i, c) ensures cs'[c].forcemute == (EdgeCarries(ws, j, i, def) == plugged) {
      assert Before(j, i, |ws|, 0);
    }
  }
}
