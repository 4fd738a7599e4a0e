/** audioBuildTree: traces every association in turn, then the pseudo
    associations, and leaves the marked tree the rest of the driver uses. */
module TreeBuilder {
  import opened HdaGraph
  import opened OutputTrace
  import opened OutputAssociation
  import opened InputTrace
  import opened AssociationTurns
  import opened MonitorTrace

  // ----- The tree of an input association -----

  /** p leads from widget to consumer, each carrying pin s of association a
      and none after the first a pin, to an enabled audio input. */
  ghost predicate LiveWalk(ws: seq<Widget>, p: seq<int>, a: int, s: int)
  {
    && |p| >= 1 && Carries(ws, p[0], a, s)
    && if |p| == 1 then ws[p[0]].kind == AudioInput
       else Consumer(ws, p[0], p[1]) && ws[p[1]].kind != PinComplex && LiveWalk(ws, p[1..], a, s)
  }

  /** Every present pin has a live walk to its ADC, one ADC for all. */
  ghost predicate AllJoined(ws: seq<Widget>, asc: Assoc, a: int)
    requires AssocOk(asc)
  {
    && (forall s :: 0 <= s < PINS && asc.pins[s] != 0 ==>
          exists p :: LiveWalk(ws, p, a, s) && p[0] == asc.pins[s] && p[|p| - 1] == asc.dacs[s])
    && (forall s, t :: 0 <= s < PINS && 0 <= t < PINS && asc.pins[s] != 0 && asc.pins[t] != 0 ==>
          asc.dacs[s] == asc.dacs[t])
  }

  /** A widget some pin's walk passes carries that pin. */
  lemma PassedCarries(ws: seq<Widget>, ws': seq<Widget>, a: nat, pins: seq<int>, adc: int, s: nat, x: int)
    requires |pins| == PINS && s < PINS && pins[s] != 0
    requires PinsJoined(ws, ws', a, pins, adc, PINS)
    requires OnWalk(View(ws, a), pins[s], adc, 0, x)
    ensures Carries(ws', x, a, s) && SameStructure(ws[x], ws'[x])
  {
    var g := View(ws, a);
    MetOpen(g, pins[s], adc, 0, x);
    assert ThroughAt(g, pins, adc, PINS, ws[x], ws'[x], a, x);
    assert s in PinsThrough(g, pins, adc, PINS, x);
  }

  /** A walk whose widgets have come to carry pin s is live. */
  lemma {:induction false} WalkLive(ws: seq<Widget>, ws': seq<Widget>, a: nat, adc: int, p: seq<int>, depth: nat,
                                    s: nat)
    requires AllSameStructure(ws, ws') && IsWalk(View(ws, a), p, adc, depth)
    requires forall k :: 0 <= k < |p| ==> Carries(ws', p[k], a, s)
    ensures LiveWalk(ws', p, a, s) && p[|p| - 1] == adc
    decreases |p|
  {
    if |p| > 1 {
      assert p[1..][0] == p[1];
      WalkLive(ws, ws', a, adc, p[1..], depth + 1, s);
      var i :| Edge(View(ws, a), p[0], p[1], i);
      assert SameStructure(ws[p[1]], ws'[p[1]]) && Carries(ws', p[1], a, s);
      assert Enabled(ws'[p[1]], i);
    }
  }

  lemma PinsJoinedStructure(ws: seq<Widget>, ws': seq<Widget>, a: nat, pins: seq<int>, adc: int)
    requires |pins| == PINS && PinsJoined(ws, ws', a, pins, adc, PINS)
    ensures AllSameStructure(ws, ws')
  {
    forall x | 0 <= x < |ws| ensures SameStructure(ws[x], ws'[x]) {
      assert ThroughAt(View(ws, a), pins, adc, PINS, ws[x], ws'[x], a, x);
    }
  }

  lemma JoinedTree(ws: seq<Widget>, ws': seq<Widget>, a: nat, asc: Assoc, adc: int)
    requires AssocOk(asc) && asc.dacs == AdcOf(asc.pins, adc, PINS)
    requires PinsJoined(ws, ws', a, asc.pins, adc, PINS)
    ensures AllJoined(ws', asc, a)
  {
    var g := View(ws, a);
    PinsJoinedStructure(ws, ws', a, asc.pins, adc);
    forall s | 0 <= s < PINS && asc.pins[s] != 0
      ensures exists p :: LiveWalk(ws', p, a, s) && p[0] == asc.pins[s] && p[|p| - 1] == asc.dacs[s]
    {
      assert Joins(g, asc.pins[s], adc, 0);
      var p := MeetsWalk(g, asc.pins[s], adc, 0, asc.pins[s]);
      forall k | 0 <= k < |p| ensures Carries(ws', p[k], a, s) {
        WalkMeets(g, p, adc, 0, k);
        PassedCarries(ws, ws', a, asc.pins, adc, s, p[k]);
      }
      WalkLive(ws, ws', a, adc, p, 0, s);
    }
  }

  // ----- One association does not disturb another -----

  lemma GrownTaken(ws: seq<Widget>, ws': seq<Widget>, a: int)
    requires Grown(ws, ws', a) && Unbound(ws, a)
    ensures Taken(ws, ws', a)
  {
    forall n | 0 <= n < |ws| && ws'[n] != ws[n] ensures ws[n].bindAssoc < 0 {
      assert Live(ws, n);
    }
  }

  lemma UndoneTaken(ws: seq<Widget>, ws': seq<Widget>, a: int)
    requires Undone(ws, ws')
    ensures Taken(ws, ws', a)
  {
  }

  /** A widget joined to an input association. */
  predicate JoinedNew(w: Widget, w': Widget, a: int)
  {
    && w.enable && w.bindAssoc < 0 && SameStructure(w, w') && w'.bindAssoc == a
    && w'.bindSeqMask != {} && forall b :: b in w'.bindSeqMask ==> 0 <= b < PINS
  }

  lemma PinsTakenAt(ws: seq<Widget>, ws2: seq<Widget>, a: nat, pins: seq<int>, adc: int, n: nat)
    requires |pins| == PINS && Unbound(ws, a) && PinsJoined(ws, ws2, a, pins, adc, PINS) && n < |ws|
    ensures ws2[n] == ws[n] || JoinedNew(ws[n], ws2[n], a)
  {
    var g := View(ws, a);
    var through := PinsThrough(g, pins, adc, PINS, n);
    assert ThroughAt(g, pins, adc, PINS, ws[n], ws2[n], a, n);
    if Passed(g, pins, adc, PINS, n) {
      var k :| 0 <= k < PINS && pins[k] != 0 && OnWalk(g, pins[k], adc, 0, n);
      MetOpen(g, pins[k], adc, 0, n);
      ThroughNew(ws[n], ws2[n], a, through, k);
    }
  }

  lemma ThroughNew(w: Widget, w': Widget, a: nat, through: set<int>, k: int)
    requires Open(w, a) && w.bindAssoc != a && (w.bindAssoc < 0 ==> w.bindSeqMask == {})
    requires k in through && forall b :: b in through ==> 0 <= b < PINS
    requires w' == w.(bindAssoc := a, bindSeqMask := w.bindSeqMask + through, traceDir := w.traceDir + {In},
                      selconn := w'.selconn)
    ensures JoinedNew(w, w', a)
  {
    assert k in w'.bindSeqMask;
  }

  lemma PinsTaken(ws: seq<Widget>, ws1: seq<Widget>, ws2: seq<Widget>, a: nat, pins: seq<int>, adc: int)
    requires |pins| == PINS && Unbound(ws, a) && Undone(ws, ws1) && PinsJoined(ws1, ws2, a, pins, adc, PINS)
    ensures Taken(ws, ws2, a)
    ensures forall n :: 0 <= n < |ws| ==> ws2[n] == ws[n] || ws2[n] == Cleared(ws[n]) || JoinedNew(ws[n], ws2[n], a)
  {
    UndoneView(ws, ws1, a);
    forall n | 0 <= n < |ws|
      ensures ws2[n] == ws1[n] || JoinedNew(ws1[n], ws2[n], a)
    {
      PinsTakenAt(ws1, ws2, a, pins, adc, n);
    }
  }

  lemma {:induction false} TakenRoute(ws: seq<Widget>, ws': seq<Widget>, a: int, r: Route, b: int, s: int,
                                      selected: bool)
    requires Taken(ws, ws', a) && b >= 0 && LiveRoute(ws, r, b, s, selected)
    ensures LiveRoute(ws', r, b, s, selected)
  {
    match r
    case Dac(_) =>
    case Via(_, _, rest) => TakenRoute(ws, ws', a, rest, b, s, selected);
  }

  lemma {:induction false} TakenWalk(ws: seq<Widget>, ws': seq<Widget>, a: int, p: seq<int>, b: int, s: int)
    requires Taken(ws, ws', a) && b >= 0 && LiveWalk(ws, p, b, s)
    ensures LiveWalk(ws', p, b, s)
    decreases |p|
  {
    if |p| > 1 {
      TakenWalk(ws, ws', a, p[1..], b, s);
      assert p[1..][0] == p[1];
      var i :| Enabled(ws[p[1]], i) && ws[p[1]].conns[i] == p[0];
      assert ws'[p[1]] == ws[p[1]];
    }
  }

  /** What has been built for an enabled association. */
  ghost predicate Built(ws: seq<Widget>, asc: Assoc, a: int, selected: bool)
    requires AssocOk(asc)
  {
    asc.enable ==>
      if asc.dir == Out then AllRouted(ws, asc, a, 0, selected) && Exclusive(ws, asc, a)
      else AllJoined(ws, asc, a)
  }

  lemma TakenBuilt(ws: seq<Widget>, ws': seq<Widget>, a: int, asc: Assoc, b: int, selected: bool)
    requires AssocOk(asc) && Taken(ws, ws', a) && 0 <= b && b != a && Built(ws, asc, b, selected)
    requires forall n :: Live(ws', n) && ws'[n].bindAssoc < 0 ==> ws'[n].bindSeqMask == {}
    ensures Built(ws', asc, b, selected)
  {
    if asc.enable && asc.dir == Out {
      forall s | 0 <= s < PINS && asc.pins[s] != 0 ensures PinRouted(ws', asc, b, s, selected) {
        assert PinRouted(ws, asc, b, s, selected);
        var r :| LiveRoute(ws, r, b, s, selected) && Source(r) == asc.pins[s] && Target(r) == asc.dacs[s];
        TakenRoute(ws, ws', a, r, b, s, selected);
      }
      forall n | Live(ws', n) && ws'[n].bindAssoc == b ensures Held(ws'[n], asc, PINS) {
        assert Live(ws, n) && ws'[n] == ws[n];
      }
    } else if asc.enable {
      forall s | 0 <= s < PINS && asc.pins[s] != 0
        ensures exists p :: LiveWalk(ws', p, b, s) && p[0] == asc.pins[s] && p[|p| - 1] == asc.dacs[s]
      {
        var p :| LiveWalk(ws, p, b, s) && p[0] == asc.pins[s] && p[|p| - 1] == asc.dacs[s];
        TakenWalk(ws, ws', a, p, b, s);
      }
    }
  }

  // ----- Tracing one association after the other -----

  /** Tracing fills in the DACs, may turn to fake redirection, and disables
      an association it cannot trace. */
  predicate TracedFrom(asc: Assoc, asc': Assoc)
  {
    asc' == asc.(dacs := asc'.dacs, fakeredir := asc'.fakeredir, enable := asc'.enable) && (asc'.enable ==> asc.enable)
  }

  predicate PinsInRange(mask: set<int>)
  {
    forall b :: b in mask ==> 0 <= b < PINS
  }

  /** Widgets are bound to enabled associations below j only. */
  ghost predicate BoundOk(ws: seq<Widget>, assocs: seq<Assoc>, j: int)
  {
    && (forall n :: 0 <= n < |ws| ==> -1 <= ws[n].bindAssoc < |assocs| && PinsInRange(ws[n].bindSeqMask))
    && (forall n :: Live(ws, n) ==>
          if ws[n].bindAssoc < 0 then ws[n].bindSeqMask == {}
          else ws[n].bindAssoc < j && assocs[ws[n].bindAssoc].enable)
  }

  /** Association a has been traced. */
  ghost predicate AssocTraced(ws: seq<Widget>, as0: seq<Assoc>, a: nat, selected: bool, ws': seq<Widget>,
                              as': seq<Assoc>)
    requires a < |as0|
  {
    && |as'| == |as0| && as' == as0[a := as'[a]]
    && AssocOk(as'[a]) && TracedFrom(as0[a], as'[a]) && Built(ws', as'[a], a, selected)
    && Taken(ws, ws', a)
    && forall n :: 0 <= n < |ws| && ws'[n] != ws[n] ==>
         if ws'[n].bindAssoc < 0 then ws'[n].bindSeqMask == {}
         else as'[a].enable && PinsInRange(ws'[n].bindSeqMask)
  }

  /** The associations below j have been traced. */
  ghost predicate TreeInv(startNode: nat, ws0: seq<Widget>, as0: seq<Assoc>, ws: seq<Widget>, assocs: seq<Assoc>,
                          j: nat)
  {
    && WidgetsOk(startNode, ws) && AllSameStructure(ws0, ws)
    && |assocs| == |as0| && BoundOk(ws, assocs, j)
    && (forall k :: 0 <= k < |as0| ==> AssocOk(assocs[k]))
    && (forall k :: 0 <= k < j && k < |as0| ==>
          TracedFrom(as0[k], assocs[k]) && Built(ws, assocs[k], k, Acyclic(ws0)))
    && (forall k :: j <= k < |as0| ==> assocs[k] == as0[k])
  }

  lemma TreeUnbound(startNode: nat, ws0: seq<Widget>, as0: seq<Assoc>, ws: seq<Widget>, assocs: seq<Assoc>, j: nat)
    requires TreeInv(startNode, ws0, as0, ws, assocs, j)
    ensures Unbound(ws, j)
    ensures Acyclic(ws) <==> Acyclic(ws0)
  {
    SameStructureAcyclic(ws0, ws);
  }

  lemma TreeStep(startNode: nat, ws0: seq<Widget>, as0: seq<Assoc>, ws: seq<Widget>, assocs: seq<Assoc>,
                 ws': seq<Widget>, assocs': seq<Assoc>, j: nat, next: nat)
    requires TreeInv(startNode, ws0, as0, ws, assocs, j) && j < |as0| && next == j + 1
    requires AssocTraced(ws, assocs, j, Acyclic(ws0), ws', assocs')
    ensures TreeInv(startNode, ws0, as0, ws', assocs', next)
  {
    assert AllSameStructure(ws, ws');
    SameStructureOk(startNode, ws, ws');
    TreeStepBound(ws, assocs, ws', assocs', j, next, Acyclic(ws0));
    forall k | 0 <= k < next
      ensures TracedFrom(as0[k], assocs'[k]) && Built(ws', assocs'[k], k, Acyclic(ws0))
    {
      if k < j {
        TakenBuilt(ws, ws', j, assocs[k], k, Acyclic(ws0));
      }
    }
  }

  lemma TreeStepBound(ws: seq<Widget>, assocs: seq<Assoc>, ws': seq<Widget>, assocs': seq<Assoc>, j: nat, next: nat,
                      selected: bool)
    requires BoundOk(ws, assocs, j) && j < |assocs| && next == j + 1
    requires AssocTraced(ws, assocs, j, selected, ws', assocs')
    ensures BoundOk(ws', assocs', next)
  {
    forall n | Live(ws', n)
      ensures if ws'[n].bindAssoc < 0 then ws'[n].bindSeqMask == {}
              else ws'[n].bindAssoc < next && assocs'[ws'[n].bindAssoc].enable
    {
      assert Live(ws, n);
    }
  }

  lemma SearchedTraced(ws: seq<Widget>, as0: seq<Assoc>, a: nat, ws': seq<Widget>, as': seq<Assoc>)
    requires a < |as0| && AssocOk(as0[a]) && as0[a].hpredir < PINS && as0[a].dir == Out && as0[a].enable
    requires Unbound(ws, a) && Searched(ws, as0, a, 0, true, ws', as')
    ensures AssocTraced(ws, as0, a, Acyclic(ws), ws', as')
  {
    GrownTaken(ws, ws', a);
    forall n | 0 <= n < |ws| && ws'[n] != ws[n]
      ensures if ws'[n].bindAssoc < 0 then ws'[n].bindSeqMask == {} else PinsInRange(ws'[n].bindSeqMask)
    {
      assert Live(ws', n);
    }
  }

  lemma UndoneTraced(ws: seq<Widget>, as0: seq<Assoc>, a: nat, selected: bool, ws': seq<Widget>, as': seq<Assoc>)
    requires a < |as0| && AssocOk(as0[a]) && Undone(ws, ws')
    requires |as'| == |as0| && as' == as0[a := as'[a]] && TracedFrom(as0[a], as'[a])
    requires !as'[a].enable && AssocOk(as'[a])
    ensures AssocTraced(ws, as0, a, selected, ws', as')
  {
    UndoneTaken(ws, ws', a);
  }

  lemma InputIsTraced(ws: seq<Widget>, as0: seq<Assoc>, a: nat, selected: bool, ws': seq<Widget>, as': seq<Assoc>)
    requires a < |as0| && AssocOk(as0[a]) && as0[a].dir == In && as0[a].enable
    requires Unbound(ws, a) && InputTraced(ws, as0, a, true, ws', as')
    ensures AssocTraced(ws, as0, a, selected, ws', as')
  {
    var pins := as0[a].pins;
    var adc, ws1 :| AdcFound(ws, as0, a, adc, ws1, ws', as');
    PinsTaken(ws, ws1, ws', a, pins, adc);
    JoinedTree(ws1, ws', a, as'[a], adc);
    JoinedIsTraced(ws, as0, a, selected, ws', as');
  }

  lemma JoinedIsTraced(ws: seq<Widget>, as0: seq<Assoc>, a: nat, selected: bool, ws': seq<Widget>, as': seq<Assoc>)
    requires a < |as0| && AssocOk(as0[a]) && as0[a].dir == In && as0[a].enable
    requires |as'| == |as0| && AssocOk(as'[a]) && as' == as0[a := as0[a].(dacs := as'[a].dacs)]
    requires Taken(ws, ws', a) && AllJoined(ws', as'[a], a)
    requires forall n :: 0 <= n < |ws| ==> ws'[n] == ws[n] || ws'[n] == Cleared(ws[n]) || JoinedNew(ws[n], ws'[n], a)
    ensures AssocTraced(ws, as0, a, selected, ws', as')
  {
  }

  lemma UnboundReady(ws: seq<Widget>, as0: seq<Assoc>, a: nat)
    requires a < |as0| && Unbound(ws, a) && !Live(ws, 0)
    requires AssocOk(as0[a]) && -1 <= as0[a].hpredir < PINS && forall s :: 0 <= s < PINS ==> as0[a].dacs[s] == 0
    ensures Ready(ws, as0, a, 0)
  {
  }

  /** The first search of an output association decides it, unless it fails
      and there is a redirection to fake. */
  lemma FirstTry(ws: seq<Widget>, as0: seq<Assoc>, a: nat, ok: bool, ws': seq<Widget>, as': seq<Assoc>)
    requires a < |as0| && AssocReady(as0[a]) && Unpatched(ws) && Searched(ws, as0, a, 0, ok, ws', as')
    ensures ok || as0[a].hpredir < 0 ==> OutDecided(ws, as0, a, ok, ws', as')
    ensures !ok ==> !Assignable(ws, as0, a, 0)
  {
    if ok {
      LeastIsAssignable(ws, as0, a, 0, ws', as');
    }
  }

  lemma SecondTry(ws: seq<Widget>, ws1: seq<Widget>, as0: seq<Assoc>, a: nat, ok: bool, ws2: seq<Widget>,
                  as2: seq<Assoc>)
    requires a < |as0| && AssocReady(as0[a]) && as0[a].hpredir >= 0
    requires Unpatched(ws) && Undone(ws, ws1) && !Assignable(ws, as0, a, 0)
    requires Searched(ws1, Faked(as0, a), a, 0, ok, ws2, as2)
    ensures OutDecided(ws, as0, a, ok, ws2, as2)
  {
    UndoneFresh(ws, ws1);
    if ok {
      LeastIsAssignable(ws, Faked(as0, a), a, 0, ws2, as2);
    }
  }

  /** Tracing an output association, with fake redirection as a second try. */
  method BuildOut(fg: FunctionGroup, j: nat) returns (res: bool)
    requires fg.ValidWidgets() && fg.ValidAssocs() && j < fg.assocs.Length
    requires Unbound(fg.widgets[..], j) && AssocReady(fg.assocs[j]) && fg.assocs[j].dir == Out && fg.assocs[j].enable
    modifies fg.widgets, fg.assocs
    ensures fg.ValidWidgets() && fg.ValidAssocs() && j < |old(fg.assocs[..])|
    ensures res ==> AssocTraced(old(fg.widgets[..]), old(fg.assocs[..]), j, Acyclic(old(fg.widgets[..])),
                                fg.widgets[..], fg.assocs[..]) && fg.assocs[j].enable
    ensures !res ==> Undone(old(fg.widgets[..]), fg.widgets[..])
    ensures !res ==>
              fg.assocs[..] == old(fg.assocs[..])[j := old(fg.assocs[j]).(fakeredir := fg.assocs[j].fakeredir)]
    ensures Unpatched(old(fg.widgets[..])) ==>
              OutDecided(old(fg.widgets[..]), old(fg.assocs[..]), j, res, fg.widgets[..], fg.assocs[..])
  {
    ghost var ws, as0 := fg.widgets[..], fg.assocs[..];
    UnboundReady(ws, as0, j);
    res := AudioTraceAssociationOut(fg, j, 0);
    if Unpatched(ws) {
      FirstTry(ws, as0, j, res, fg.widgets[..], fg.assocs[..]);
    }
    if res {
      SearchedTraced(ws, as0, j, fg.widgets[..], fg.assocs[..]);
    } else if fg.assocs[j].hpredir >= 0 && !fg.assocs[j].fakeredir {
      // If the codec can't do analog HP redirection, try one more DAC.
      res := BuildOutFake(fg, j, ws, as0);
    }
  }

  method BuildOutFake(fg: FunctionGroup, j: nat, ghost ws: seq<Widget>, ghost as0: seq<Assoc>) returns (res: bool)
    requires fg.ValidWidgets() && fg.ValidAssocs() && j < fg.assocs.Length
    requires fg.assocs[..] == as0 && Undone(ws, fg.widgets[..])
    requires Unbound(ws, j) && AssocReady(as0[j]) && as0[j].dir == Out && as0[j].enable && as0[j].hpredir >= 0
    requires Unpatched(ws) ==> !Assignable(ws, as0, j, 0)
    modifies fg.widgets, fg.assocs
    ensures fg.ValidWidgets() && fg.ValidAssocs()
    ensures res ==> AssocTraced(ws, as0, j, Acyclic(ws), fg.widgets[..], fg.assocs[..]) && fg.assocs[j].enable
    ensures !res ==> Undone(ws, fg.widgets[..])
                     && fg.assocs[..] == as0[j := as0[j].(fakeredir := fg.assocs[j].fakeredir)]
    ensures Unpatched(ws) ==> OutDecided(ws, as0, j, res, fg.widgets[..], fg.assocs[..])
  {
    ghost var ws1 := fg.widgets[..];
    UndoneView(ws, ws1, j);
    fg.assocs[j] := fg.assocs[j].(fakeredir := true);
    ghost var as1 := fg.assocs[..];
    assert as1 == Faked(as0, j);
    UnboundReady(ws1, as1, j);
    res := AudioTraceAssociationOut(fg, j, 0);
    if Unpatched(ws) {
      SecondTry(ws, ws1, as0, j, res, fg.widgets[..], fg.assocs[..]);
    }
    if res {
      SearchedTraced(ws1, as1, j, fg.widgets[..], fg.assocs[..]);
      TracedAfterUndone(ws, ws1, as0, as1, j, fg.widgets[..], fg.assocs[..]);
    }
  }

  lemma TracedAfterUndone(ws: seq<Widget>, ws1: seq<Widget>, as0: seq<Assoc>, as1: seq<Assoc>, a: nat, ws2: seq<Widget>,
                          as2: seq<Assoc>)
    requires a < |as0| && Undone(ws, ws1) && as1 == as0[a := as0[a].(fakeredir := true)]
    requires AssocTraced(ws1, as1, a, Acyclic(ws1), ws2, as2)
    ensures AssocTraced(ws, as0, a, Acyclic(ws), ws2, as2)
  {
    SameStructureAcyclic(ws, ws1);
  }

  lemma JoinedUnpatched(ws: seq<Widget>, ws': seq<Widget>, a: nat)
    requires |ws'| == |ws| && Unpatched(ws)
    requires forall n :: 0 <= n < |ws| ==> ws'[n] == ws[n] || ws'[n] == Cleared(ws[n]) || JoinedNew(ws[n], ws'[n], a)
    ensures Unpatched(ws')
  {
    forall n | Live(ws', n) && ws'[n].bindAssoc < 0 ensures ws'[n] == Cleared(ws'[n]) {
      assert Live(ws, n);
    }
  }

  lemma InputUnpatched(ws: seq<Widget>, as0: seq<Assoc>, a: nat, ok: bool, ws': seq<Widget>, as': seq<Assoc>)
    requires a < |as0| && AssocOk(as0[a]) && Unbound(ws, a) && InputTraced(ws, as0, a, ok, ws', as') && Unpatched(ws)
    ensures Unpatched(ws')
  {
    if ok {
      var pins := as0[a].pins;
      var adc, ws1 :| AdcFound(ws, as0, a, adc, ws1, ws', as');
      PinsTaken(ws, ws1, ws', a, pins, adc);
      JoinedUnpatched(ws, ws', a);
    } else {
      UndoneUnpatched(ws, ws');
    }
  }

  /** A turn that leaves the association enabled is a decision about it. */
  lemma TracedTurn(ws: seq<Widget>, as0: seq<Assoc>, a: nat, ws': seq<Widget>, as': seq<Assoc>)
    requires a < |as0| && AssocReady(as0[a]) && as0[a].enable && Unbound(ws, a)
    requires AssocTraced(ws, as0, a, Acyclic(ws), ws', as') && as'[a].enable
    requires as0[a].dir == Out && Unpatched(ws) ==> OutDecided(ws, as0, a, true, ws', as')
    requires as0[a].dir == In ==> InputTraced(ws, as0, a, true, ws', as')
    ensures TurnTaken(ws, as0, a, ws', as')
  {
    if Unpatched(ws) {
      if as0[a].dir == Out {
        OutUnpatched(ws, as0, a, true, ws', as');
      } else {
        InputUnpatched(ws, as0, a, true, ws', as');
      }
    }
  }

  /** A turn that disables the association. */
  lemma DisabledTurn(ws: seq<Widget>, as0: seq<Assoc>, a: nat, ws': seq<Widget>, as1: seq<Assoc>, as': seq<Assoc>)
    requires a < |as0| && AssocReady(as0[a]) && as0[a].enable && Undone(ws, ws')
    requires |as1| == |as0| && as1 == as0[a := as0[a].(fakeredir := as1[a].fakeredir)]
    requires as' == as1[a := as1[a].(enable := false)]
    requires as0[a].dir == Out && Unpatched(ws) ==> OutDecided(ws, as0, a, false, ws', as1)
    requires as0[a].dir == In ==> InputTraced(ws, as0, a, false, ws', as0)
    ensures TurnTaken(ws, as0, a, ws', as')
  {
    UndoneTaken(ws, ws', a);
    if Unpatched(ws) {
      UndoneUnpatched(ws, ws');
    }
  }

  /** Tracing one enabled association. */
  method BuildAssociation(fg: FunctionGroup, j: nat)
    requires fg.ValidWidgets() && fg.ValidAssocs() && j < fg.assocs.Length
    requires Unbound(fg.widgets[..], j) && AssocReady(fg.assocs[j]) && fg.assocs[j].enable
    modifies fg.widgets, fg.assocs
    ensures fg.ValidWidgets() && j < |old(fg.assocs[..])|
    ensures AssocTraced(old(fg.widgets[..]), old(fg.assocs[..]), j, Acyclic(old(fg.widgets[..])),
                        fg.widgets[..], fg.assocs[..])
    ensures TurnTaken(old(fg.widgets[..]), old(fg.assocs[..]), j, fg.widgets[..], fg.assocs[..])
  {
    ghost var ws, as0 := fg.widgets[..], fg.assocs[..];
    var res;
    if fg.assocs[j].dir == Out {
      res := BuildOut(fg, j);
    } else {
      assert as0[j].dacs == AdcOf(as0[j].pins, 0, 0);
      res := AudioTraceAssociationIn(fg, j);
      if res {
        InputIsTraced(ws, as0, j, Acyclic(ws), fg.widgets[..], fg.assocs[..]);
      }
    }
    if res {
      TracedTurn(ws, as0, j, fg.widgets[..], fg.assocs[..]);
    } else {
      ghost var as1 := fg.assocs[..];
      fg.assocs[j] := fg.assocs[j].(enable := false);
      UndoneTraced(ws, as0, j, Acyclic(ws), fg.widgets[..], fg.assocs[..]);
      DisabledTurn(ws, as0, j, fg.widgets[..], as1, fg.assocs[..]);
    }
  }

  /** The associations below j have had their turns, the last stage is now. */
  ghost predicate InTurn(ws0: seq<Widget>, as0: seq<Assoc>, stages: seq<Stage>, ws: seq<Widget>, assocs: seq<Assoc>,
                         j: nat)
  {
    Turns(as0, stages, j) && stages[0] == Stage(ws0, as0) && stages[j] == Stage(ws, assocs)
  }

  lemma InTurnNext(startNode: nat, ws0: seq<Widget>, as0: seq<Assoc>, stages: seq<Stage>, ws: seq<Widget>,
                   assocs: seq<Assoc>, j: nat, next: nat, ws': seq<Widget>, assocs': seq<Assoc>)
    requires InTurn(ws0, as0, stages, ws, assocs, j) && TreeInv(startNode, ws0, as0, ws, assocs, j)
    requires j < |as0| && next == j + 1
    requires if assocs[j].enable then AssocReady(assocs[j]) && TurnTaken(ws, assocs, j, ws', assocs')
             else ws' == ws && assocs' == assocs
    ensures InTurn(ws0, as0, stages + [Stage(ws', assocs')], ws', assocs', next)
  {
    TreeUnbound(startNode, ws0, as0, ws, assocs, j);
    assert Turn(as0, stages[j], j, Stage(ws', assocs'));
    TurnsNext(as0, stages, j, next, Stage(ws', assocs'));
  }

  /** The loop of audioBuildTree over the associations. */
  method BuildAssociations(fg: FunctionGroup) returns (ghost stages: seq<Stage>)
    requires fg.ValidWidgets() && BoundOk(fg.widgets[..], fg.assocs[..], 0)
    requires forall a :: 0 <= a < fg.assocs.Length ==> AssocReady(fg.assocs[a])
    modifies fg.widgets, fg.assocs
    ensures TreeInv(fg.startNode, old(fg.widgets[..]), old(fg.assocs[..]), fg.widgets[..], fg.assocs[..],
                    fg.assocs.Length)
    ensures InTurn(old(fg.widgets[..]), old(fg.assocs[..]), stages, fg.widgets[..], fg.assocs[..], fg.assocs.Length)
  {
    ghost var ws0, as0 := fg.widgets[..], fg.assocs[..];
    stages := [Stage(ws0, as0)];
    var j := 0;
    while j < fg.assocs.Length
      invariant 0 <= j <= fg.assocs.Length
      invariant TreeInv(fg.startNode, ws0, as0, fg.widgets[..], fg.assocs[..], j)
      invariant InTurn(ws0, as0, stages, fg.widgets[..], fg.assocs[..], j)
    {
      ghost var k, ws, assocs := j, fg.widgets[..], fg.assocs[..];
      TreeUnbound(fg.startNode, ws0, as0, ws, assocs, k);
      if fg.assocs[j].enable {
        BuildAssociation(fg, j);
      }
      j := j + 1;
      TreeStep(fg.startNode, ws0, as0, ws, assocs, fg.widgets[..], fg.assocs[..], k, j);
      InTurnNext(fg.startNode, ws0, as0, stages, ws, assocs, k, j, fg.widgets[..], fg.assocs[..]);
      stages := stages + [Stage(fg.widgets[..], fg.assocs[..])];
    }
    assert j == fg.assocs.Length;
  }

  // ----- The pseudo associations come last -----

  /** Beep generators have no inputs, as the HD Audio specification has it. */
  predicate BeepsHaveNoInputs(ws: seq<Widget>)
  {
    forall n :: 0 <= n < |ws| && ws[n].enable && ws[n].kind == BeepGenerator ==> ws[n].conns == []
  }

  /** The pins of an association are pin complexes. */
  predicate PinsArePins(ws: seq<Widget>, asc: Assoc)
  {
    forall s :: 0 <= s < |asc.pins| && asc.pins[s] != 0 ==>
         0 <= asc.pins[s] < |ws| && ws[asc.pins[s]].kind == PinComplex
  }

  lemma {:induction false} TappedRoute(ws: seq<Widget>, ws': seq<Widget>, assocs: seq<Assoc>, r: Route, b: int, s: int,
                                       selected: bool)
    requires Tapped(ws, ws', assocs) && BeepsHaveNoInputs(ws) && b >= 0
    requires LiveRoute(ws, r, b, s, selected)
    ensures LiveRoute(ws', r, b, s, selected)
  {
    assert TappedAt(ws[Source(r)], ws'[Source(r)]);
    match r
    case Dac(_) =>
    case Via(_, _, rest) => TappedRoute(ws, ws', assocs, rest, b, s, selected);
  }

  lemma {:induction false} TappedWalk(ws: seq<Widget>, ws': seq<Widget>, assocs: seq<Assoc>, p: seq<int>, b: int,
                                      s: int)
    requires Tapped(ws, ws', assocs) && BeepsHaveNoInputs(ws) && b >= 0
    requires LiveWalk(ws, p, b, s) && ws[p[0]].kind != BeepGenerator
    ensures LiveWalk(ws', p, b, s)
    decreases |p|
  {
    assert TappedAt(ws[p[0]], ws'[p[0]]);
    if |p| > 1 {
      assert p[1..][0] == p[1];
      var i :| Enabled(ws[p[1]], i) && ws[p[1]].conns[i] == p[0];
      assert ws[p[1]].kind != BeepGenerator;
      TappedWalk(ws, ws', assocs, p[1..], b, s);
      assert TappedAt(ws[p[1]], ws'[p[1]]);
      assert Enabled(ws'[p[1]], i);
    }
  }

  lemma TappedBuilt(ws: seq<Widget>, ws': seq<Widget>, assocs: seq<Assoc>, asc: Assoc, b: int, selected: bool)
    requires AssocOk(asc) && Tapped(ws, ws', assocs) && b >= 0 && Built(ws, asc, b, selected)
    requires BeepsHaveNoInputs(ws) && PinsArePins(ws, asc)
    ensures Built(ws', asc, b, selected)
  {
    if asc.enable && asc.dir == Out {
      forall s | 0 <= s < PINS && asc.pins[s] != 0 ensures PinRouted(ws', asc, b, s, selected) {
        assert PinRouted(ws, asc, b, s, selected);
        var r :| LiveRoute(ws, r, b, s, selected) && Source(r) == asc.pins[s] && Target(r) == asc.dacs[s];
        TappedRoute(ws, ws', assocs, r, b, s, selected);
      }
      TappedExclusive(ws, ws', assocs, asc, b);
    } else if asc.enable {
      forall s | 0 <= s < PINS && asc.pins[s] != 0
        ensures exists p :: LiveWalk(ws', p, b, s) && p[0] == asc.pins[s] && p[|p| - 1] == asc.dacs[s]
      {
        var p :| LiveWalk(ws, p, b, s) && p[0] == asc.pins[s] && p[|p| - 1] == asc.dacs[s];
        TappedWalk(ws, ws', assocs, p, b, s);
      }
    }
  }

  lemma TappedExclusive(ws: seq<Widget>, ws': seq<Widget>, assocs: seq<Assoc>, asc: Assoc, b: int)
    requires Tapped(ws, ws', assocs) && b >= 0 && Exclusive(ws, asc, b)
    ensures Exclusive(ws', asc, b)
  {
    forall n | Live(ws', n) && ws'[n].bindAssoc == b ensures Held(ws'[n], asc, PINS) {
      assert TappedAt(ws[n], ws'[n]) && Live(ws, n);
    }
  }

  /** Whatever the graph, a traced route survives the extra trace exactly when
      it does not run through a beep generator. */
  lemma {:induction false} ExtraKeepsRoute(startNode: nat, ws: seq<Widget>, ws': seq<Widget>, assocs: seq<Assoc>,
                                           r: Route, b: int, s: int, selected: bool)
    requires ExtraTraced(startNode, ws, ws', assocs) && b >= 0 && LiveRoute(ws, r, b, s, selected)
    ensures LiveRoute(ws', r, b, s, selected) <==>
            forall n :: n in Nodes(r) && 0 <= n < |ws| ==> ws[n].kind != BeepGenerator
  {
    assert TappedAt(ws[Source(r)], ws'[Source(r)]);
    match r
    case Dac(_) =>
    case Via(_, _, rest) => ExtraKeepsRoute(startNode, ws, ws', assocs, rest, b, s, selected);
  }

  // ----- audioBuildTree -----

  /** The widget after tracing: only binding fields and the monitor flag. */
  predicate OnlyTraced(w: Widget, w': Widget)
  {
    w' == w.(selconn := w'.selconn, traceDir := w'.traceDir, bindAssoc := w'.bindAssoc,
             bindSeqMask := w'.bindSeqMask, monitor := w'.monitor)
  }

  /** What audioBuildTree leaves, `stages` being the states between the turns
      of the associations.  Every association that is still
      enabled has been traced: an output association has a live route for every
      pin and shares widgets only by redirection, an input association has a
      live walk to one ADC for every pin; and it is enabled exactly when its
      turn could trace it.  The extra trace comes after the last turn.  Every
      enabled widget is bound to an enabled association, to the pseudo
      association -2, or to none; and no pin is bound to -2. */
  ghost predicate TreeBuilt(startNode: nat, ws0: seq<Widget>, as0: seq<Assoc>, stages: seq<Stage>, ws: seq<Widget>,
                            assocs: seq<Assoc>)
  {
    && WidgetsOk(startNode, ws) && |ws| == |ws0| && |assocs| == |as0|
    && (forall n :: 0 <= n < |ws| ==> OnlyTraced(ws0[n], ws[n]))
    && (forall n :: 0 <= n < |ws| ==> -2 <= ws[n].bindAssoc < |assocs| && PinsInRange(ws[n].bindSeqMask))
    && (forall n :: Live(ws, n) && ws[n].bindAssoc >= 0 ==> assocs[ws[n].bindAssoc].enable)
    && (forall n :: Live(ws, n) && ws[n].kind == PinComplex ==> ws[n].bindAssoc != -2)
    && (forall a :: 0 <= a < |as0| ==> AssocOk(assocs[a]) && TracedFrom(as0[a], assocs[a]))
    && (BeepsHaveNoInputs(ws0) ==>
          forall a :: 0 <= a < |as0| && PinsArePins(ws0, as0[a]) ==> Built(ws, assocs[a], a, Acyclic(ws0)))
    && Turns(as0, stages, |as0|) && stages[0].ws == ws0 && stages[|as0|].assocs == assocs
    && ExtraTraced(startNode, stages[|as0|].ws, ws, assocs)
  }

  lemma TreeDone(startNode: nat, ws0: seq<Widget>, as0: seq<Assoc>, stages: seq<Stage>, ws1: seq<Widget>,
                 ws: seq<Widget>, assocs: seq<Assoc>)
    requires TreeInv(startNode, ws0, as0, ws1, assocs, |as0|) && InTurn(ws0, as0, stages, ws1, assocs, |as0|)
    requires ExtraTraced(startNode, ws1, ws, assocs)
    ensures TreeBuilt(startNode, ws0, as0, stages, ws, assocs)
  {
    forall n | 0 <= n < |ws|
      ensures OnlyTraced(ws0[n], ws[n]) && -2 <= ws[n].bindAssoc < |assocs| && PinsInRange(ws[n].bindSeqMask)
      ensures Live(ws, n) && ws[n].bindAssoc >= 0 ==> assocs[ws[n].bindAssoc].enable
      ensures Live(ws, n) && ws[n].kind == PinComplex ==> ws[n].bindAssoc != -2
    {
      assert TappedAt(ws1[n], ws[n]) && SameStructure(ws0[n], ws1[n]);
      assert Live(ws, n) ==> Live(ws1, n);
    }
    if BeepsHaveNoInputs(ws0) {
      BeepsSame(ws0, ws1);
      forall a | 0 <= a < |as0| && PinsArePins(ws0, as0[a]) ensures Built(ws, assocs[a], a, Acyclic(ws0)) {
        PinsSame(ws0, ws1, as0[a], assocs[a]);
        TappedBuilt(ws1, ws, assocs, assocs[a], a, Acyclic(ws0));
      }
    }
  }

  lemma BeepsSame(ws: seq<Widget>, ws': seq<Widget>)
    requires AllSameStructure(ws, ws') && BeepsHaveNoInputs(ws)
    ensures BeepsHaveNoInputs(ws')
  {
    forall n | 0 <= n < |ws'| && ws'[n].enable && ws'[n].kind == BeepGenerator ensures ws'[n].conns == [] {
      assert SameStructure(ws[n], ws'[n]);
    }
  }

  lemma PinsSame(ws: seq<Widget>, ws': seq<Widget>, asc: Assoc, asc': Assoc)
    requires AllSameStructure(ws, ws') && PinsArePins(ws, asc) && asc'.pins == asc.pins
    ensures PinsArePins(ws', asc')
  {
    forall s | 0 <= s < |asc.pins| && asc.pins[s] != 0
      ensures 0 <= asc.pins[s] < |ws'| && ws'[asc.pins[s]].kind == PinComplex
    {
      assert SameStructure(ws[asc.pins[s]], ws'[asc.pins[s]]);
    }
  }

  method AudioBuildTree(fg: FunctionGroup) returns (ghost stages: seq<Stage>)
    requires fg.ValidWidgets() && BoundOk(fg.widgets[..], fg.assocs[..], 0)
    requires forall a :: 0 <= a < fg.assocs.Length ==> AssocReady(fg.assocs[a])
    modifies fg.widgets, fg.assocs
    ensures TreeBuilt(fg.startNode, old(fg.widgets[..]), old(fg.assocs[..]), stages, fg.widgets[..], fg.assocs[..])
  {
    ghost var ws0, as0 := fg.widgets[..], fg.assocs[..];
    stages := BuildAssociations(fg);
    ghost var ws1 := fg.widgets[..];
    AudioTraceAssociationExtra(fg);
    TreeDone(fg.startNode, ws0, as0, stages, ws1, fg.widgets[..], fg.assocs[..]);
  }
}
