/** switchHandler: polls the jacks and keeps what can be heard in step with
    what is plugged in, over any run of polls. */
module SwitchPoll {
  import opened HdaGraph
  import opened Configuration
  import opened Amplifiers
  import opened PruningPasses
  import opened CodecCommit
  import opened JackSwitch
  import opened MicSwitch

  /** The poll asks pin n: it can sense, and its association redirects. */
  predicate Sensing(ws: seq<Widget>, assocs: seq<Assoc>, n: int)
  {
    && Live(ws, n) && ws[n].kind == PinComplex && ws[n].senseCap && Misc(ws[n].config) % 2 == 0
    && 0 <= ws[n].bindAssoc < |assocs| && assocs[ws[n].bindAssoc].hpredir >= 0
  }

  function SenseBit(plugged: bool): int { if plugged then 1 else 0 }

  /** The associations a poll relies on: pins are bound to an enabled one, and
      the pins of an enabled one are bound to it. */
  ghost predicate AssocsReady(ws: seq<Widget>, assocs: seq<Assoc>)
  {
    && (forall n :: Live(ws, n) && ws[n].kind == PinComplex ==>
          0 <= ws[n].bindAssoc < |assocs| && assocs[ws[n].bindAssoc].enable)
    && (forall a :: 0 <= a < |assocs| ==> AssocOk(assocs[a]))
    && (forall a, p :: 0 <= a < |assocs| && assocs[a].enable && PinOf(assocs[a].pins, p) && p < |ws| ==>
         ws[p].bindAssoc == a)
    && (forall a :: 0 <= a < |assocs| && assocs[a].hpredir >= 0 ==>
          0 <= assocs[a].defaultPin < PINS && 0 <= assocs[a].pins[assocs[a].defaultPin] < |ws|)
  }

  ghost predicate TablesReady(startNode: nat, ws: seq<Widget>, cs: seq<Control>, assocs: seq<Assoc>)
  {
    WidgetsReady(startNode, ws) && ControlsReady(ws, cs) && AssocsReady(ws, assocs)
  }

  ghost predicate JackReady(startNode: nat, ws: seq<Widget>, cs: seq<Control>, assocs: seq<Assoc>, log: seq<Verb>)
  {
    TablesReady(startNode, ws, cs, assocs) && CodecReady(startNode, ws, cs, log)
  }

  ghost predicate SameNodes(ws: seq<Widget>, ws': seq<Widget>)
  {
    |ws'| == |ws| && forall n :: 0 <= n < |ws| ==> SameNode(ws[n], ws'[n])
  }

  lemma SameNodesReady(startNode: nat, ws: seq<Widget>, ws': seq<Widget>, assocs: seq<Assoc>)
    requires SameNodes(ws, ws') && WidgetsReady(startNode, ws) && AssocsReady(ws, assocs)
    ensures WidgetsReady(startNode, ws') && AssocsReady(ws', assocs)
  {
    forall n | 0 <= n < |ws|
      ensures WidgetOk(ws'[n]) && (Live(ws', n) <==> Live(ws, n))
      ensures ws'[n].kind == ws[n].kind && ws'[n].bindAssoc == ws[n].bindAssoc && ws'[n].conns == ws[n].conns
      ensures forall i :: Enabled(ws'[n], i) <==> Enabled(ws[n], i)
    {
      assert SameNode(ws[n], ws'[n]) && WidgetOk(ws[n]);
    }
  }

  lemma SameSensing(ws: seq<Widget>, ws': seq<Widget>, assocs: seq<Assoc>, n: int)
    requires SameNodes(ws, ws')
    ensures Sensing(ws', assocs, n) == Sensing(ws, assocs, n)
    ensures 0 <= n < |ws| ==> ws'[n].bindAssoc == ws[n].bindAssoc && ws'[n].config == ws[n].config
  {
    if 0 <= n < |ws| {
      assert SameNode(ws[n], ws'[n]);
    }
  }

  // ----- One event -----

  /** Pin n of association a is heard exactly when plugged, its other pins
      exactly when it is not. */
  ghost predicate Heard(startNode: nat, ws: seq<Widget>, cs: seq<Control>, assocs: seq<Assoc>, a: int, n: int,
                        plugged: bool)
  {
    && 0 <= a < |assocs| && 0 <= n < |ws| && Audible(ws, cs, n) == plugged
    && forall p :: p != n && PinOf(assocs[a].pins, p) && startNode <= p < |ws| && ws[p].kind == PinComplex ==>
         Audible(ws, cs, p) == !plugged
  }

  /** Pin n of recording association a has switched its inputs: a mixer input is
      mute exactly when it carries the default pin and n is plugged, or does not
      and n is not; a selector stands on the last connection wanted, if there is
      one. */
  ghost predicate Recorded(ws: seq<Widget>, cs: seq<Control>, assocs: seq<Assoc>, a: int, n: int, plugged: bool)
  {
    && 0 <= n < |ws| && DefaultKnown(ws, assocs, a)
    && (forall j, i, c :: OwnAmp(ws, cs, a, j, i, c) ==>
          cs[c].forcemute == (EdgeCarries(ws, j, i, DefaultMask(ws, assocs, a)) == plugged))
    && forall j, i :: Moves(ws, a, j, i, ws[n].bindSeqMask, plugged) ==>
         i <= ws[j].selconn && Moves(ws, a, j, ws[j].selconn, ws[n].bindSeqMask, plugged)
  }

  predicate DefaultKnown(ws: seq<Widget>, assocs: seq<Assoc>, a: int)
  {
    && 0 <= a < |assocs| && AssocOk(assocs[a]) && 0 <= assocs[a].defaultPin < PINS
    && 0 <= assocs[a].pins[assocs[a].defaultPin] < |ws|
  }

  function DefaultMask(ws: seq<Widget>, assocs: seq<Assoc>, a: int): set<int>
    requires DefaultKnown(ws, assocs, a)
  {
    ws[assocs[a].pins[assocs[a].defaultPin]].bindSeqMask
  }

  /** Connection i of selector j is one to stand on. */
  predicate Moves(ws: seq<Widget>, a: int, j: int, i: int, jack: set<int>, plugged: bool)
  {
    0 <= j < |ws| && ws[j].kind == Selector && Wanted(ws, a, j, i, jack, plugged)
  }

  /** The event of pin n: its sense is recorded, an output pin switches what is
      heard of its association, an input pin what is recorded, and nothing of
      another association changes. */
  ghost predicate EventDone(startNode: nat, ws: seq<Widget>, cs: seq<Control>, ws': seq<Widget>, cs': seq<Control>,
                            assocs: seq<Assoc>, n: int, plugged: bool)
    requires 0 <= n < |ws|
  {
    && SameNodes(ws, ws') && |cs'| == |cs|
    && (forall m :: 0 <= m < |ws| ==> ws'[m].sense == if m == n then SenseBit(plugged) else ws[m].sense)
    && (forall c :: 0 <= c < |cs| ==> SameControl(cs[c], cs'[c]))
    && (IsOutputDevice(ws[n].config) ==> Heard(startNode, ws', cs', assocs, ws[n].bindAssoc, n, plugged))
    && (!IsOutputDevice(ws[n].config) ==> Recorded(ws', cs', assocs, ws[n].bindAssoc, n, plugged))
    && Aside(ws, cs, ws', cs', ws[n].bindAssoc)
    && (forall p :: 0 <= p < |ws| && ws[p].kind == PinComplex && ws[p].bindAssoc != ws[n].bindAssoc ==>
          Audible(ws', cs', p) == Audible(ws, cs, p))
  }

  /** The selections and controls of widgets outside association a are as before. */
  ghost predicate Aside(ws: seq<Widget>, cs: seq<Control>, ws': seq<Widget>, cs': seq<Control>, a: int)
    requires |ws'| == |ws| && |cs'| == |cs|
  {
    && (forall j :: 0 <= j < |ws| && ws[j].bindAssoc != a ==> ws'[j].selconn == ws[j].selconn)
    && (forall c :: 0 <= c < |cs| && cs[c].widget < |ws| && ws[cs[c].widget].bindAssoc != a ==> cs'[c] == cs[c])
  }

  /** What an input jack switches is found by fields that no event changes. */
  lemma SameInputs(ws: seq<Widget>, cs: seq<Control>, ws': seq<Widget>, cs': seq<Control>, a: int)
    requires SameNodes(ws, ws') && AllSame(cs, cs')
    ensures forall j, i, c :: OwnAmp(ws', cs', a, j, i, c) <==> OwnAmp(ws, cs, a, j, i, c)
    ensures forall j, i, mask :: MicEdge(ws, a, j, i) ==> EdgeCarries(ws', j, i, mask) == EdgeCarries(ws, j, i, mask)
    ensures forall j, i, jack, plugged :: Moves(ws', a, j, i, jack, plugged) <==> Moves(ws, a, j, i, jack, plugged)
  {
    forall j, i ensures MicEdge(ws', a, j, i) <==> MicEdge(ws, a, j, i)
      ensures forall mask :: MicEdge(ws, a, j, i) ==> EdgeCarries(ws', j, i, mask) == EdgeCarries(ws, j, i, mask)
      ensures 0 <= j < |ws| ==> ws'[j].kind == ws[j].kind
    {
      if 0 <= j < |ws| {
        MicEdgeStays(ws, ws', a, j, i);
        assert SameNode(ws[j], ws'[j]);
        if MicEdge(ws, a, j, i) {
          assert SameNode(ws[ws[j].conns[i]], ws'[ws[j].conns[i]]);
        }
      }
    }
    forall j, i, c ensures IsNth(cs', j, In, i, 1, c) == IsNth(cs, j, In, i, 1, c) {
      SameNth(cs, cs', j, In, i, c);
    }
    assert forall c :: 0 <= c < |cs| ==> SameControl(cs[c], cs'[c]);
  }

  /** What association a records is not disturbed from outside it. */
  lemma RecordedStays(ws: seq<Widget>, cs: seq<Control>, ws': seq<Widget>, cs': seq<Control>, assocs: seq<Assoc>,
                      a: int, b: int, n: int, plugged: bool)
    requires SameNodes(ws, ws') && AllSame(cs, cs') && Aside(ws, cs, ws', cs', b) && a != b
    requires Recorded(ws, cs, assocs, a, n, plugged)
    ensures Recorded(ws', cs', assocs, a, n, plugged)
  {
    SameInputs(ws, cs, ws', cs', a);
    var def := assocs[a].pins[assocs[a].defaultPin];
    assert SameNode(ws[def], ws'[def]) && SameNode(ws[n], ws'[n]);
    forall j, i, c | OwnAmp(ws', cs', a, j, i, c)
      ensures cs'[c].forcemute == (EdgeCarries(ws', j, i, DefaultMask(ws', assocs, a)) == plugged)
    {
      assert OwnAmp(ws, cs, a, j, i, c);
    }
  }

  lemma MicRecorded(ws: seq<Widget>, cs: seq<Control>, ws1: seq<Widget>, ws2: seq<Widget>, cs2: seq<Control>,
                    assocs: seq<Assoc>, n: nat, plugged: bool)
    requires n < |ws| && ws1 == ws[n := ws[n].(sense := SenseBit(plugged))] && DefaultKnown(ws, assocs, ws[n].bindAssoc)
    requires MicSwitchedAll(ws1, cs, ws2, cs2, ws[n].bindAssoc, ws[n].bindSeqMask,
                            DefaultMask(ws, assocs, ws[n].bindAssoc), plugged)
    ensures Recorded(ws2, cs2, assocs, ws[n].bindAssoc, n, plugged)
  {
    var a, jack := ws[n].bindAssoc, ws[n].bindSeqMask;
    var def := assocs[a].pins[assocs[a].defaultPin];
    SameInputs(ws1, cs, ws2, cs2, a);
    assert SameNode(ws1[n], ws2[n]) && SameNode(ws1[def], ws2[def]);
    forall j, i, c | OwnAmp(ws2, cs2, a, j, i, c)
      ensures cs2[c].forcemute == (EdgeCarries(ws2, j, i, DefaultMask(ws2, assocs, a)) == plugged)
    {
      assert OwnAmp(ws1, cs, a, j, i, c);
    }
    forall j, i | Moves(ws2, a, j, i, jack, plugged)
      ensures i <= ws2[j].selconn && Moves(ws2, a, j, ws2[j].selconn, jack, plugged)
    {
      assert Moves(ws1, a, j, i, jack, plugged);
      LastWantedMeans(ws1, a, j, jack, plugged, |ws1[j].conns|);
    }
  }

  lemma HpEvent(startNode: nat, ws: seq<Widget>, cs: seq<Control>, ws1: seq<Widget>, ws2: seq<Widget>,
                cs2: seq<Control>, assocs: seq<Assoc>, n: nat, plugged: bool)
    requires Sensing(ws, assocs, n) && n >= startNode && AssocsReady(ws, assocs) && IsOutputDevice(ws[n].config)
    requires ws1 == ws[n := ws[n].(sense := SenseBit(plugged))]
    requires HpSwitched(startNode, ws1, cs, ws2, cs2, n, assocs[ws[n].bindAssoc].pins, plugged)
    ensures EventDone(startNode, ws, cs, ws2, cs2, assocs, n, plugged)
  {
    forall m | 0 <= m < |ws| ensures SameNode(ws[m], ws2[m]) && ws2[m].selconn == ws[m].selconn {
      assert SameNode(ws1[m], ws2[m]);
    }
    HpAside(startNode, ws, cs, ws1, ws2, cs2, assocs, n, plugged);
    forall p | 0 <= p < |ws| && ws[p].kind == PinComplex && ws[p].bindAssoc != ws[n].bindAssoc
      ensures Audible(ws2, cs2, p) == Audible(ws, cs, p)
    {
      assert !PinOf(assocs[ws[n].bindAssoc].pins, p);
      UntouchedAudible(ws1, cs, ws2, cs2, p);
    }
  }

  lemma HpAside(startNode: nat, ws: seq<Widget>, cs: seq<Control>, ws1: seq<Widget>, ws2: seq<Widget>,
                cs2: seq<Control>, assocs: seq<Assoc>, n: nat, plugged: bool)
    requires Sensing(ws, assocs, n) && n >= startNode && AssocsReady(ws, assocs)
    requires ws1 == ws[n := ws[n].(sense := SenseBit(plugged))]
    requires HpSwitched(startNode, ws1, cs, ws2, cs2, n, assocs[ws[n].bindAssoc].pins, plugged)
    ensures forall c :: 0 <= c < |cs| && cs[c].widget < |ws| && ws[cs[c].widget].bindAssoc != ws[n].bindAssoc ==>
              cs2[c] == cs[c]
  {
    forall c | 0 <= c < |cs| && cs[c].widget < |ws| && ws[cs[c].widget].bindAssoc != ws[n].bindAssoc
      ensures cs2[c] == cs[c]
    {
      assert !PinOf(assocs[ws[n].bindAssoc].pins, cs[c].widget);
      assert Untouched(ws1, cs, ws2, cs2, cs[c].widget);
    }
  }

  lemma MicEvent(startNode: nat, ws: seq<Widget>, cs: seq<Control>, ws1: seq<Widget>, ws2: seq<Widget>,
                 cs2: seq<Control>, assocs: seq<Assoc>, n: nat, plugged: bool)
    requires Sensing(ws, assocs, n) && !IsOutputDevice(ws[n].config) && DefaultKnown(ws, assocs, ws[n].bindAssoc)
    requires ws1 == ws[n := ws[n].(sense := SenseBit(plugged))]
    requires MicSwitchedAll(ws1, cs, ws2, cs2, ws[n].bindAssoc, ws[n].bindSeqMask,
                            DefaultMask(ws, assocs, ws[n].bindAssoc), plugged)
    ensures EventDone(startNode, ws, cs, ws2, cs2, assocs, n, plugged)
  {
    MicRecorded(ws, cs, ws1, ws2, cs2, assocs, n, plugged);
    forall m | 0 <= m < |ws| ensures SameNode(ws[m], ws2[m]) {
      assert SameNode(ws1[m], ws2[m]);
    }
    forall p | 0 <= p < |ws| && ws[p].kind == PinComplex
      ensures Audible(ws2, cs2, p) == Audible(ws, cs, p)
    {
      UntouchedAudible(ws1, cs, ws2, cs2, p);
    }
  }

  lemma SensedReady(startNode: nat, ws: seq<Widget>, cs: seq<Control>, log: seq<Verb>, n: nat, sense: int)
    requires n < |ws| && CodecReady(startNode, ws, cs, log)
    ensures CodecReady(startNode, ws[n := ws[n].(sense := sense)], cs, log)
  {
    OpenedSame(ws, ws[n := ws[n].(sense := sense)], cs, log);
  }

  method HandleEvent(fg: FunctionGroup, link: CodecLink, n: nat, plugged: bool)
    requires JackReady(fg.startNode, fg.widgets[..], fg.controls[..], fg.assocs[..], link.log)
    requires fg.startNode <= n && Sensing(fg.widgets[..], fg.assocs[..], n)
    modifies fg.widgets, fg.controls, link
    ensures EventDone(fg.startNode, old(fg.widgets[..]), old(fg.controls[..]), fg.widgets[..], fg.controls[..],
                      fg.assocs[..], n, plugged)
    ensures CodecReady(fg.startNode, fg.widgets[..], fg.controls[..], link.log)
  {
    ghost var ws, cs, assocs := fg.widgets[..], fg.controls[..], fg.assocs[..];
    assert AssocsReady(ws, assocs);
    fg.widgets[n] := fg.widgets[n].(sense := SenseBit(plugged));
    ghost var ws1 := fg.widgets[..];
    assert ws1 == ws[n := ws[n].(sense := SenseBit(plugged))];
    SensedReady(fg.startNode, ws, cs, link.log, n, SenseBit(plugged));
    assert SameNodes(ws, ws1);
    SameNodesReady(fg.startNode, ws, ws1, assocs);
    if IsOutputDevice(fg.widgets[n].config) {
      HandleOutput(fg, link, n, plugged, ws);
    } else {
      HandleInput(fg, link, n, plugged, ws);
    }
  }

  /** The sense of output pin n has been recorded. */
  method HandleOutput(fg: FunctionGroup, link: CodecLink, n: nat, plugged: bool, ghost ws: seq<Widget>)
    requires JackReady(fg.startNode, fg.widgets[..], fg.controls[..], fg.assocs[..], link.log)
    requires fg.startNode <= n && Sensing(ws, fg.assocs[..], n) && AssocsReady(ws, fg.assocs[..])
    requires fg.widgets[..] == ws[n := ws[n].(sense := SenseBit(plugged))] && IsOutputDevice(ws[n].config)
    modifies fg.widgets, fg.controls, link
    ensures EventDone(fg.startNode, ws, old(fg.controls[..]), fg.widgets[..], fg.controls[..], fg.assocs[..], n,
                      plugged)
    ensures CodecReady(fg.startNode, fg.widgets[..], fg.controls[..], link.log)
  {
    ghost var cs, ws1, assocs := fg.controls[..], fg.widgets[..], fg.assocs[..];
    HpSwitchHandler(fg, link, n, plugged);
    HpEvent(fg.startNode, ws, cs, ws1, fg.widgets[..], fg.controls[..], assocs, n, plugged);
  }

  /** The sense of input pin n has been recorded. */
  method HandleInput(fg: FunctionGroup, link: CodecLink, n: nat, plugged: bool, ghost ws: seq<Widget>)
    requires JackReady(fg.startNode, fg.widgets[..], fg.controls[..], fg.assocs[..], link.log)
    requires fg.startNode <= n && Sensing(ws, fg.assocs[..], n) && AssocsReady(ws, fg.assocs[..])
    requires fg.widgets[..] == ws[n := ws[n].(sense := SenseBit(plugged))] && !IsOutputDevice(ws[n].config)
    modifies fg.widgets, fg.controls, link
    ensures EventDone(fg.startNode, ws, old(fg.controls[..]), fg.widgets[..], fg.controls[..], fg.assocs[..], n,
                      plugged)
    ensures CodecReady(fg.startNode, fg.widgets[..], fg.controls[..], link.log)
  {
    ghost var cs, ws1, assocs := fg.controls[..], fg.widgets[..], fg.assocs[..];
    MicSwitchHandler(fg, link, n, plugged);
    MicEvent(fg.startNode, ws, cs, ws1, fg.widgets[..], fg.controls[..], assocs, n, plugged);
  }

  // ----- One poll -----

  /** Pin n fires in a poll that starts in ws. */
  predicate Fires(ws: seq<Widget>, assocs: seq<Assoc>, senses: seq<bool>, first: bool, n: int)
  {
    Sensing(ws, assocs, n) && n < |senses| && (first || ws[n].sense != SenseBit(senses[n]))
  }

  /** The last pin of association a below n to fire, prev for none. */
  function LastEvent(ws: seq<Widget>, assocs: seq<Assoc>, senses: seq<bool>, first: bool, a: int, prev: int, n: nat)
    : int
    requires n <= |ws|
  {
    if n == 0 then prev
    else if Fires(ws, assocs, senses, first, n - 1) && ws[n - 1].bindAssoc == a then n - 1
    else LastEvent(ws, assocs, senses, first, a, prev, n - 1)
  }

  /** What can be heard and what is recorded follows, in every association, the
      pin that fired last (0 for none yet). */
  ghost predicate Follows(startNode: nat, ws: seq<Widget>, cs: seq<Control>, assocs: seq<Assoc>, last: seq<int>)
  {
    && |last| == |assocs|
    && forall a :: 0 <= a < |assocs| && last[a] != 0 ==>
         && Sensing(ws, assocs, last[a]) && ws[last[a]].bindAssoc == a
         && (IsOutputDevice(ws[last[a]].config) ==>
              Heard(startNode, ws, cs, assocs, a, last[a], ws[last[a]].sense == 1))
         && (!IsOutputDevice(ws[last[a]].config) ==> Recorded(ws, cs, assocs, a, last[a], ws[last[a]].sense == 1))
  }

  /** The pins below i have been polled. */
  ghost predicate Polled(startNode: nat, ws0: seq<Widget>, ws: seq<Widget>, cs: seq<Control>, assocs: seq<Assoc>,
                         senses: seq<bool>, first: bool, last0: seq<int>, last: seq<int>, i: nat)
  {
    && i <= |ws0| && |senses| == |ws0| && |last0| == |assocs|
    && SameNodes(ws0, ws) && Follows(startNode, ws, cs, assocs, last)
    && (forall n :: 0 <= n < |ws0| ==>
          ws[n].sense == if n < i && Sensing(ws0, assocs, n) then SenseBit(senses[n]) else ws0[n].sense)
    && (forall a :: 0 <= a < |assocs| ==> last[a] == LastEvent(ws0, assocs, senses, first, a, last0[a], i))
  }

  lemma PolledSkip(startNode: nat, ws0: seq<Widget>, ws: seq<Widget>, cs: seq<Control>, assocs: seq<Assoc>,
                   senses: seq<bool>, first: bool, last0: seq<int>, last: seq<int>, i: nat, next: nat)
    requires Polled(startNode, ws0, ws, cs, assocs, senses, first, last0, last, i) && i < |ws0| && next == i + 1
    requires !Fires(ws0, assocs, senses, first, i)
    ensures Polled(startNode, ws0, ws, cs, assocs, senses, first, last0, last, next)
  {
  }

  lemma EventFollows(startNode: nat, ws: seq<Widget>, cs: seq<Control>, ws': seq<Widget>, cs': seq<Control>,
                     assocs: seq<Assoc>, last: seq<int>, n: nat, plugged: bool)
    requires Follows(startNode, ws, cs, assocs, last) && AssocsReady(ws, assocs) && Sensing(ws, assocs, n)
    requires EventDone(startNode, ws, cs, ws', cs', assocs, n, plugged)
    ensures Follows(startNode, ws', cs', assocs, last[ws[n].bindAssoc := n])
  {
    var last' := last[ws[n].bindAssoc := n];
    forall a | 0 <= a < |assocs| && last'[a] != 0
      ensures Sensing(ws', assocs, last'[a]) && ws'[last'[a]].bindAssoc == a
      ensures IsOutputDevice(ws'[last'[a]].config) ==>
                Heard(startNode, ws', cs', assocs, a, last'[a], ws'[last'[a]].sense == 1)
      ensures !IsOutputDevice(ws'[last'[a]].config) ==>
                Recorded(ws', cs', assocs, a, last'[a], ws'[last'[a]].sense == 1)
    {
      var m := last'[a];
      SameSensing(ws, ws', assocs, m);
      if a != ws[n].bindAssoc {
        if IsOutputDevice(ws[m].config) {
          HeardStays(startNode, ws, cs, ws', cs', assocs, n, plugged, a, m);
        } else {
          RecordedStays(ws, cs, ws', cs', assocs, a, ws[n].bindAssoc, m, ws[m].sense == 1);
        }
      }
    }
  }

  lemma HeardStays(startNode: nat, ws: seq<Widget>, cs: seq<Control>, ws': seq<Widget>, cs': seq<Control>,
                   assocs: seq<Assoc>, n: nat, plugged: bool, a: nat, m: int)
    requires AssocsReady(ws, assocs) && Sensing(ws, assocs, n)
    requires EventDone(startNode, ws, cs, ws', cs', assocs, n, plugged)
    requires Sensing(ws, assocs, m) && ws[m].bindAssoc == a != ws[n].bindAssoc
    requires Heard(startNode, ws, cs, assocs, a, m, ws[m].sense == 1)
    ensures Heard(startNode, ws', cs', assocs, a, m, ws'[m].sense == 1)
  {
    assert assocs[a].enable;
    forall p | p != m && PinOf(assocs[a].pins, p) && startNode <= p < |ws'| && ws'[p].kind == PinComplex
      ensures Audible(ws', cs', p) == !(ws'[m].sense == 1)
    {
      assert SameNode(ws[p], ws'[p]);
    }
  }

  lemma PolledEvent(startNode: nat, ws0: seq<Widget>, ws: seq<Widget>, cs: seq<Control>, ws': seq<Widget>,
                    cs': seq<Control>, assocs: seq<Assoc>, senses: seq<bool>, first: bool, last0: seq<int>,
                    last: seq<int>, i: nat, next: nat)
    requires Polled(startNode, ws0, ws, cs, assocs, senses, first, last0, last, i) && i < |ws0| && next == i + 1
    requires Fires(ws0, assocs, senses, first, i) && AssocsReady(ws, assocs)
    requires EventDone(startNode, ws, cs, ws', cs', assocs, i, senses[i])
    ensures Polled(startNode, ws0, ws', cs', assocs, senses, first, last0, last[ws0[i].bindAssoc := i], next)
  {
    SameSensing(ws0, ws, assocs, i);
    EventFollows(startNode, ws, cs, ws', cs', assocs, last, i, senses[i]);
    forall n | 0 <= n < |ws0| ensures SameNode(ws0[n], ws'[n]) {
      assert SameNode(ws0[n], ws[n]) && SameNode(ws[n], ws'[n]);
    }
  }

  lemma SameControlsReady(ws: seq<Widget>, cs: seq<Control>, ws': seq<Widget>, cs': seq<Control>)
    requires ControlsReady(ws, cs) && |ws'| == |ws| && |cs'| == |cs|
    requires forall c :: 0 <= c < |cs| ==> SameControl(cs[c], cs'[c])
    ensures ControlsReady(ws', cs')
  {
    forall c | 0 <= c < |cs| ensures LevelsInRange(cs'[c]) && cs'[c].widget < |ws'| {
      assert SameControl(cs[c], cs'[c]) && LevelsInRange(cs[c]);
    }
    forall c, d | 0 <= c < d < |cs| ensures !SameAmp(cs'[c], cs'[d]) {
      assert SameControl(cs[c], cs'[c]) && SameControl(cs[d], cs'[d]);
      assert !SameAmp(cs[c], cs[d]);
    }
  }

  /** The pins below i have been polled, and the codec mirrors the tables. */
  ghost predicate Polling(startNode: nat, ws0: seq<Widget>, cs0: seq<Control>, ws: seq<Widget>, cs: seq<Control>,
                          log: seq<Verb>, assocs: seq<Assoc>, senses: seq<bool>, first: bool, last0: seq<int>,
                          last: seq<int>, i: nat)
  {
    && Polled(startNode, ws0, ws, cs, assocs, senses, first, last0, last, i)
    && CodecReady(startNode, ws, cs, log) && AllSame(cs0, cs)
  }

  /** The tables stay fit for the next pin. */
  lemma PollingReady(startNode: nat, ws0: seq<Widget>, cs0: seq<Control>, ws: seq<Widget>, cs: seq<Control>,
                     log: seq<Verb>, assocs: seq<Assoc>, senses: seq<bool>, first: bool, last0: seq<int>,
                     last: seq<int>, i: nat)
    requires TablesReady(startNode, ws0, cs0, assocs)
    requires Polling(startNode, ws0, cs0, ws, cs, log, assocs, senses, first, last0, last, i)
    ensures JackReady(startNode, ws, cs, assocs, log)
  {
    SameNodesReady(startNode, ws0, ws, assocs);
    SameControlsReady(ws0, cs0, ws, cs);
  }

  lemma PollingEvent(startNode: nat, ws0: seq<Widget>, cs0: seq<Control>, ws: seq<Widget>, cs: seq<Control>,
                     log: seq<Verb>, ws': seq<Widget>, cs': seq<Control>, log': seq<Verb>, assocs: seq<Assoc>,
                     senses: seq<bool>, first: bool, last0: seq<int>, last: seq<int>, i: nat, next: nat)
    requires Polling(startNode, ws0, cs0, ws, cs, log, assocs, senses, first, last0, last, i)
    requires i < |ws0| && next == i + 1
    requires Fires(ws0, assocs, senses, first, i) && AssocsReady(ws, assocs)
    requires EventDone(startNode, ws, cs, ws', cs', assocs, i, senses[i]) && CodecReady(startNode, ws', cs', log')
    ensures Polling(startNode, ws0, cs0, ws', cs', log', assocs, senses, first, last0, last[ws0[i].bindAssoc := i],
                    next)
  {
    PolledEvent(startNode, ws0, ws, cs, ws', cs', assocs, senses, first, last0, last, i, next);
    forall c | 0 <= c < |cs0| ensures SameControl(cs0[c], cs'[c]) {
      assert SameControl(cs0[c], cs[c]) && SameControl(cs[c], cs'[c]);
    }
  }

  /** Pin i is asked, and handled if it fires. */
  method PollPin(fg: FunctionGroup, link: CodecLink, first: bool, senses: seq<bool>, i: nat, ghost next: nat,
                 ghost ws0: seq<Widget>, ghost cs0: seq<Control>, ghost last0: seq<int>, ghost last: seq<int>)
    returns (ghost last': seq<int>)
    requires fg.startNode <= i < fg.widgets.Length && next == i + 1
    requires TablesReady(fg.startNode, ws0, cs0, fg.assocs[..])
    requires Polling(fg.startNode, ws0, cs0, fg.widgets[..], fg.controls[..], link.log, fg.assocs[..], senses, first,
                     last0, last, i)
    modifies fg.widgets, fg.controls, link
    ensures Polling(fg.startNode, ws0, cs0, fg.widgets[..], fg.controls[..], link.log, fg.assocs[..], senses, first,
                    last0, last', next)
  {
    ghost var ws, cs, log, assocs := fg.widgets[..], fg.controls[..], link.log, fg.assocs[..];
    SameSensing(ws0, ws, assocs, i);
    PollingReady(fg.startNode, ws0, cs0, ws, cs, log, assocs, senses, first, last0, last, i);
    last' := last;
    var w := fg.widgets[i];
    if w.enable && w.kind == PinComplex && w.senseCap && Misc(w.config) % 2 == 0 && fg.assocs[w.bindAssoc].hpredir >= 0
       && (first || w.sense != SenseBit(senses[i])) {
      HandleEvent(fg, link, i, senses[i]);
      PollingEvent(fg.startNode, ws0, cs0, ws, cs, log, fg.widgets[..], fg.controls[..], link.log, assocs, senses,
                   first, last0, last, i, next);
      last' := last[ws0[i].bindAssoc := i];
    } else {
      PolledSkip(fg.startNode, ws0, ws, cs, assocs, senses, first, last0, last, i, next);
    }
  }

  /** switchHandler; last names the pin that fired last in every association. */
  method SwitchHandler(fg: FunctionGroup, link: CodecLink, first: bool, senses: seq<bool>, ghost last: seq<int>)
    returns (ghost last': seq<int>)
    requires JackReady(fg.startNode, fg.widgets[..], fg.controls[..], fg.assocs[..], link.log)
    requires |senses| == fg.widgets.Length
    requires Follows(fg.startNode, fg.widgets[..], fg.controls[..], fg.assocs[..], last)
    modifies fg.widgets, fg.controls, link
    ensures Polling(fg.startNode, old(fg.widgets[..]), old(fg.controls[..]), fg.widgets[..], fg.controls[..], link.log,
                    fg.assocs[..], senses, first, last, last', fg.widgets.Length)
  {
    ghost var ws0, cs0, assocs := fg.widgets[..], fg.controls[..], fg.assocs[..];
    last' := last;
    PollingStart(fg.startNode, ws0, cs0, link.log, assocs, senses, first, last);
    var i, n := fg.startNode, fg.widgets.Length;
    while i < n
      invariant fg.startNode <= i <= n
      invariant Polling(fg.startNode, ws0, cs0, fg.widgets[..], fg.controls[..], link.log, assocs, senses, first, last,
                        last', i)
    {
      ghost var next := i + 1;
      last' := PollPin(fg, link, first, senses, i, next, ws0, cs0, last, last');
      i := i + 1;
      assert i == next;
    }
    assert i == n;
  }

  lemma PollingStart(startNode: nat, ws: seq<Widget>, cs: seq<Control>, log: seq<Verb>, assocs: seq<Assoc>,
                     senses: seq<bool>, first: bool, last: seq<int>)
    requires JackReady(startNode, ws, cs, assocs, log) && |senses| == |ws| && Follows(startNode, ws, cs, assocs, last)
    ensures Polling(startNode, ws, cs, ws, cs, log, assocs, senses, first, last, last, startNode)
  {
    NotBefore(ws, assocs, senses, first, last, startNode);
  }

  lemma {:induction false} NotBefore(ws: seq<Widget>, assocs: seq<Assoc>, senses: seq<bool>, first: bool,
                                     last: seq<int>, n: nat)
    requires n <= |ws| && |last| == |assocs| && forall m :: 0 <= m < n ==> !ws[m].enable
    ensures forall a :: 0 <= a < |assocs| ==> LastEvent(ws, assocs, senses, first, a, last[a], n) == last[a]
  {
    if n > 0 {
      NotBefore(ws, assocs, senses, first, last, n - 1);
    }
  }

  // ----- Any run of polls -----

  /** Pin n fires in poll k of the run: it is asked first, or its jack changed. */
  predicate FiresIn(ws: seq<Widget>, assocs: seq<Assoc>, polls: seq<seq<bool>>, k: nat, n: nat)
    requires k < |polls| && n < |ws| && forall j :: 0 <= j < |polls| ==> |polls[j]| == |ws|
  {
    Sensing(ws, assocs, n) && (k == 0 || polls[k][n] != polls[k - 1][n])
  }

  /** The last pin of association a below n to fire in poll k, prev for none. */
  function LastInPoll(ws: seq<Widget>, assocs: seq<Assoc>, polls: seq<seq<bool>>, k: nat, a: int, prev: int, n: nat)
    : int
    requires k < |polls| && n <= |ws| && forall j :: 0 <= j < |polls| ==> |polls[j]| == |ws|
  {
    if n == 0 then prev
    else if FiresIn(ws, assocs, polls, k, n - 1) && ws[n - 1].bindAssoc == a then n - 1
    else LastInPoll(ws, assocs, polls, k, a, prev, n - 1)
  }

  /** The last pin of association a to fire in the first k polls, 0 for none. */
  function LastInRun(ws: seq<Widget>, assocs: seq<Assoc>, polls: seq<seq<bool>>, k: nat, a: int): int
    requires k <= |polls| && forall j :: 0 <= j < |polls| ==> |polls[j]| == |ws|
  {
    if k == 0 then 0 else LastInPoll(ws, assocs, polls, k - 1, a, LastInRun(ws, assocs, polls, k - 1, a), |ws|)
  }

  /** After k polls the recorded senses are those of the last poll, and last is
      what the history of the jacks says. */
  ghost predicate RunState(startNode: nat, ws0: seq<Widget>, cs0: seq<Control>, ws: seq<Widget>, cs: seq<Control>,
                           log: seq<Verb>, assocs: seq<Assoc>, polls: seq<seq<bool>>, last: seq<int>, k: nat)
  {
    && k <= |polls| && (forall j :: 0 <= j < |polls| ==> |polls[j]| == |ws0|)
    && SameNodes(ws0, ws) && AllSame(cs0, cs) && JackReady(startNode, ws, cs, assocs, log)
    && Follows(startNode, ws, cs, assocs, last)
    && (k > 0 ==> forall n :: 0 <= n < |ws0| && Sensing(ws0, assocs, n) ==> ws[n].sense == SenseBit(polls[k - 1][n]))
    && (forall a :: 0 <= a < |assocs| ==> last[a] == LastInRun(ws0, assocs, polls, k, a))
  }

  lemma {:induction false} SameEvents(ws0: seq<Widget>, ws: seq<Widget>, assocs: seq<Assoc>, polls: seq<seq<bool>>,
                                      k: nat, a: int, prev: int, n: nat)
    requires k < |polls| && n <= |ws0| && (forall j :: 0 <= j < |polls| ==> |polls[j]| == |ws0|)
    requires SameNodes(ws0, ws)
    requires k > 0 ==> forall m :: 0 <= m < |ws0| && Sensing(ws0, assocs, m) ==>
              ws[m].sense == SenseBit(polls[k - 1][m])
    ensures LastEvent(ws, assocs, polls[k], k == 0, a, prev, n) == LastInPoll(ws0, assocs, polls, k, a, prev, n)
  {
    if n > 0 {
      SameSensing(ws0, ws, assocs, n - 1);
      SameEvents(ws0, ws, assocs, polls, k, a, prev, n - 1);
    }
  }

  lemma RunNext(startNode: nat, ws0: seq<Widget>, cs0: seq<Control>, ws: seq<Widget>, cs: seq<Control>, log: seq<Verb>,
                ws': seq<Widget>, cs': seq<Control>, log': seq<Verb>, assocs: seq<Assoc>, polls: seq<seq<bool>>,
                last: seq<int>, last': seq<int>, k: nat, next: nat)
    requires RunState(startNode, ws0, cs0, ws, cs, log, assocs, polls, last, k) && k < |polls| && next == k + 1
    requires Polling(startNode, ws, cs, ws', cs', log', assocs, polls[k], k == 0, last, last', |ws|)
    ensures RunState(startNode, ws0, cs0, ws', cs', log', assocs, polls, last', next)
  {
    PollingReady(startNode, ws, cs, ws', cs', log', assocs, polls[k], k == 0, last, last', |ws|);
    forall n | 0 <= n < |ws0|
      ensures SameNode(ws0[n], ws'[n])
      ensures Sensing(ws0, assocs, n) ==> ws'[n].sense == SenseBit(polls[k][n])
    {
      assert SameNode(ws0[n], ws[n]) && SameNode(ws[n], ws'[n]);
      SameSensing(ws0, ws, assocs, n);
    }
    forall c | 0 <= c < |cs0| ensures SameControl(cs0[c], cs'[c]) {
      assert SameControl(cs0[c], cs[c]) && SameControl(cs[c], cs'[c]);
    }
    forall a | 0 <= a < |assocs| ensures last'[a] == LastInRun(ws0, assocs, polls, next, a) {
      SameEvents(ws0, ws, assocs, polls, k, a, last[a], |ws0|);
    }
  }

  /** A run of polls, the first with first = true. */
  method RunPolls(fg: FunctionGroup, link: CodecLink, polls: seq<seq<bool>>) returns (ghost last: seq<int>)
    requires JackReady(fg.startNode, fg.widgets[..], fg.controls[..], fg.assocs[..], link.log)
    requires forall j :: 0 <= j < |polls| ==> |polls[j]| == fg.widgets.Length
    modifies fg.widgets, fg.controls, link
    ensures RunState(fg.startNode, old(fg.widgets[..]), old(fg.controls[..]), fg.widgets[..], fg.controls[..], link.log,
                     fg.assocs[..], polls, last, |polls|)
  {
    ghost var ws0, cs0, assocs := fg.widgets[..], fg.controls[..], fg.assocs[..];
    last := seq(|assocs|, _ => 0);
    var k := 0;
    while k < |polls|
      invariant 0 <= k <= |polls|
      invariant RunState(fg.startNode, ws0, cs0, fg.widgets[..], fg.controls[..], link.log, assocs, polls, last, k)
    {
      ghost var ws, cs, log, last0, k0 := fg.widgets[..], fg.controls[..], link.log, last, k;
      last := SwitchHandler(fg, link, k == 0, polls[k], last0);
      k := k + 1;
      RunNext(fg.startNode, ws0, cs0, ws, cs, log, fg.widgets[..], fg.controls[..], link.log, assocs, polls, last0,
              last, k0, k);
    }
  }

  // ----- What a run guarantees -----

  /** After any run the pin of an association that fired last decides: an output
      pin is heard exactly when its jack is in, every other pin of the association
      exactly when not; an input pin has switched the mixers and selectors. */
  lemma LastPinDecides(startNode: nat, ws0: seq<Widget>, cs0: seq<Control>, ws: seq<Widget>, cs: seq<Control>,
                       log: seq<Verb>, assocs: seq<Assoc>, polls: seq<seq<bool>>, last: seq<int>, a: nat)
    requires RunState(startNode, ws0, cs0, ws, cs, log, assocs, polls, last, |polls|) && a < |assocs|
    requires LastInRun(ws0, assocs, polls, |polls|, a) != 0
    ensures var n := LastInRun(ws0, assocs, polls, |polls|, a);
            && Sensing(ws0, assocs, n) && ws0[n].bindAssoc == a && |polls| > 0
            && (IsOutputDevice(ws0[n].config) ==> Heard(startNode, ws, cs, assocs, a, n, polls[|polls| - 1][n]))
            && (!IsOutputDevice(ws0[n].config) ==> Recorded(ws, cs, assocs, a, n, polls[|polls| - 1][n]))
  {
    SameSensing(ws0, ws, assocs, last[a]);
  }

  ghost predicate OnlySensing(ws: seq<Widget>, assocs: seq<Assoc>, n: int)
  {
    Sensing(ws, assocs, n) && forall m :: Sensing(ws, assocs, m) && ws[m].bindAssoc == ws[n].bindAssoc ==> m == n
  }

  lemma {:induction false} OnlyEvent(ws: seq<Widget>, assocs: seq<Assoc>, polls: seq<seq<bool>>, k: nat, n: nat,
                                     prev: int, m: nat)
    requires k < |polls| && m <= |ws| && (forall j :: 0 <= j < |polls| ==> |polls[j]| == |ws|)
    requires OnlySensing(ws, assocs, n)
    ensures LastInPoll(ws, assocs, polls, k, ws[n].bindAssoc, prev, m) in {prev, n}
    ensures k == 0 && m > n ==> LastInPoll(ws, assocs, polls, k, ws[n].bindAssoc, prev, m) == n
  {
    if m > 0 {
      OnlyEvent(ws, assocs, polls, k, n, prev, m - 1);
    }
  }

  lemma {:induction false} OnlyFires(ws: seq<Widget>, assocs: seq<Assoc>, polls: seq<seq<bool>>, k: nat, n: nat)
    requires 1 <= k <= |polls| && (forall j :: 0 <= j < |polls| ==> |polls[j]| == |ws|)
    requires OnlySensing(ws, assocs, n)
    ensures LastInRun(ws, assocs, polls, k, ws[n].bindAssoc) == n
  {
    var a := ws[n].bindAssoc;
    OnlyEvent(ws, assocs, polls, k - 1, n, LastInRun(ws, assocs, polls, k - 1, a), |ws|);
    if k > 1 {
      OnlyFires(ws, assocs, polls, k - 1, n);
    }
  }

  /** With one sensing pin in an output association, after every poll of a run
      what is heard is what the jack says. */
  lemma OneJackFollowed(startNode: nat, ws0: seq<Widget>, cs0: seq<Control>, ws: seq<Widget>, cs: seq<Control>,
                        log: seq<Verb>, assocs: seq<Assoc>, polls: seq<seq<bool>>, last: seq<int>, n: nat)
    requires RunState(startNode, ws0, cs0, ws, cs, log, assocs, polls, last, |polls|) && |polls| > 0
    requires n > 0 && OnlySensing(ws0, assocs, n) && IsOutputDevice(ws0[n].config)
    ensures ws[n].sense == SenseBit(polls[|polls| - 1][n])
    ensures Heard(startNode, ws, cs, assocs, ws0[n].bindAssoc, n, polls[|polls| - 1][n])
  {
    OnlyFires(ws0, assocs, polls, |polls|, n);
    LastPinDecides(startNode, ws0, cs0, ws, cs, log, assocs, polls, last, ws0[n].bindAssoc);
  }

  /** A disabled control is as silent after the run as before it; and so is its
      amplifier in the codec, but for those of output pins that the commit
      opened. */
  lemma RunSilent(startNode: nat, ws0: seq<Widget>, cs0: seq<Control>, ws: seq<Widget>, cs: seq<Control>,
                  log: seq<Verb>, assocs: seq<Assoc>, polls: seq<seq<bool>>, last: seq<int>)
    requires RunState(startNode, ws0, cs0, ws, cs, log, assocs, polls, last, |polls|) && DisabledSilent(cs0)
    ensures DisabledSilent(cs) && forall c :: 0 <= c < |cs0| && !cs0[c].enable ==> cs[c] == cs0[c]
    ensures CodecReady(startNode, ws, cs, log)
    ensures forall c :: 0 <= c < |cs0| && !cs0[c].enable ==>
              ((forall right :: AmpOfControl(log, cs0[c], right) == Amp(true, 0)) <==> !PassesAudio(ws0, cs0[c]))
  {
    forall c | 0 <= c < |cs0| ensures SameControl(cs0[c], cs[c]) {
    }
    forall c | 0 <= c < |cs0| && !cs0[c].enable
      ensures (forall right :: AmpOfControl(log, cs0[c], right) == Amp(true, 0)) <==> !PassesAudio(ws0, cs0[c])
    {
      DisabledAmpSilent(startNode, ws, cs, log, c);
      if cs0[c].widget < |ws0| {
        assert SameNode(ws0[cs0[c].widget], ws[cs0[c].widget]);
      }
    }
  }
}
