/** What an input search leaves: said of paths in the widget records and of the
    fields of the widgets on them. */
module InputSelections {
  import opened HdaGraph
  import opened OutputTrace
  import opened OutputAssociation
  import opened InputTrace
  import opened TreeBuilder
  import opened Trails

  /** A walk by its end: the trace from p[0] meets p[m]. */
  lemma TrailMeets(ws: seq<Widget>, a: nat, p: seq<int>, adc: int, m: nat)
    requires RecordingTrail(ws, a, p, adc, 0) && m < |p|
    ensures OnWalk(View(ws, a), p[0], adc, 0, p[m])
  {
    WalkIff(ws, a, p, adc, 0);
    WalkMeets(View(ws, a), p, adc, 0, m);
  }

  lemma MeetsTrail(ws: seq<Widget>, a: nat, n: int, adc: int, x: int) returns (p: seq<int>)
    requires OnWalk(View(ws, a), n, adc, 0, x)
    ensures RecordingTrail(ws, a, p, adc, 0) && p[0] == n && x in p
  {
    p := MeetsWalk(View(ws, a), n, adc, 0, x);
    WalkIff(ws, a, p, adc, 0);
  }

  /** A pin reaches an ADC exactly when there is a path. */
  lemma JoinsIff(ws: seq<Widget>, a: nat, n: int, adc: int)
    ensures Joins(View(ws, a), n, adc, 0) <==> exists p :: RecordingTrail(ws, a, p, adc, 0) && p[0] == n
  {
    if Joins(View(ws, a), n, adc, 0) {
      var p := MeetsTrail(ws, a, n, adc, n);
    }
    if p :| RecordingTrail(ws, a, p, adc, 0) && p[0] == n {
      TrailMeets(ws, a, p, adc, 0);
    }
  }

  /** An enabled audio input that no other association has, with a path from
      every present pin. */
  ghost predicate CommonAdc(ws: seq<Widget>, a: nat, pins: seq<int>, adc: int)
  {
    && 0 <= adc < |ws| && ws[adc].enable && ws[adc].kind == AudioInput
    && (ws[adc].bindAssoc < 0 || ws[adc].bindAssoc == a)
    && forall k :: 0 <= k < |pins| && pins[k] != 0 ==> exists p :: RecordingTrail(ws, a, p, adc, 0) && p[0] == pins[k]
  }

  lemma CommonIff(ws: seq<Widget>, a: nat, pins: seq<int>, adc: int)
    ensures CommonAdc(ws, a, pins, adc) <==> Candidate(View(ws, a), adc) && JoinsAll(View(ws, a), pins, adc)
  {
    forall k | 0 <= k < |pins|
      ensures Joins(View(ws, a), pins[k], adc, 0) <==> exists p :: RecordingTrail(ws, a, p, adc, 0) && p[0] == pins[k]
    {
      JoinsIff(ws, a, pins[k], adc);
    }
  }

  /** The search succeeds exactly when there is a common ADC, and then takes the
      one with the least node id. */
  lemma LeastCommonAdc(ws: seq<Widget>, as0: seq<Assoc>, a: nat, ok: bool, ws': seq<Widget>, as': seq<Assoc>)
    requires a < |as0| && AssocOk(as0[a]) && InputTraced(ws, as0, a, ok, ws', as')
    ensures ok <==> exists adc :: CommonAdc(ws, a, as0[a].pins, adc)
    ensures |as'| == |as0| && AssocOk(as'[a])
    ensures ok ==> forall k :: 0 <= k < PINS && as0[a].pins[k] != 0 ==>
              && CommonAdc(ws, a, as0[a].pins, as'[a].dacs[k])
              && forall adc :: CommonAdc(ws, a, as0[a].pins, adc) ==> as'[a].dacs[k] <= adc
  {
    var pins := as0[a].pins;
    forall adc
      ensures CommonAdc(ws, a, pins, adc) <==> Candidate(View(ws, a), adc) && JoinsAll(View(ws, a), pins, adc)
    {
      CommonIff(ws, a, pins, adc);
    }
  }

  /** The pins have been joined to the ADC from ws1, which is ws up to what
      failed searches erased. */
  ghost predicate JoinedTo(ws: seq<Widget>, ws1: seq<Widget>, ws': seq<Widget>, a: nat, pins: seq<int>, adc: int)
    requires |pins| == PINS
  {
    && Undone(ws, ws1) && View(ws1, a) == View(ws, a)
    && PinsJoined(ws1, ws', a, pins, adc, PINS) && FirstSteered(ws1, ws', a, pins, adc, PINS)
  }

  lemma AdcJoined(ws: seq<Widget>, as0: seq<Assoc>, a: nat, adc: int, ws1: seq<Widget>, ws': seq<Widget>,
                  as': seq<Assoc>)
    requires a < |as0| && AssocOk(as0[a]) && Unbound(ws, a) && AdcFound(ws, as0, a, adc, ws1, ws', as')
    ensures JoinedTo(ws, ws1, ws', a, as0[a].pins, adc)
    ensures |as'| == |as0| && AssocOk(as'[a])
    ensures forall k :: 0 <= k < PINS && as0[a].pins[k] != 0 ==> as'[a].dacs[k] == adc
  {
    UndoneView(ws, ws1, a);
  }

  lemma SearchDone(ws: seq<Widget>, as0: seq<Assoc>, a: nat, ws': seq<Widget>, as': seq<Assoc>)
    returns (adc: int, ws1: seq<Widget>)
    requires a < |as0| && AssocOk(as0[a]) && Unbound(ws, a) && InputTraced(ws, as0, a, true, ws', as')
    ensures JoinedTo(ws, ws1, ws', a, as0[a].pins, adc)
    ensures |as'| == |as0| && AssocOk(as'[a])
    ensures forall k :: 0 <= k < PINS && as0[a].pins[k] != 0 ==> as'[a].dacs[k] == adc
  {
    adc, ws1 :| AdcFound(ws, as0, a, adc, ws1, ws', as');
    AdcJoined(ws, as0, a, adc, ws1, ws', as');
  }

  lemma NoLaterPin(ws: seq<Widget>, a: nat, p: seq<int>, adc: int, m: nat)
    requires RecordingTrail(ws, a, p, adc, 0) && 0 < m < |p|
    ensures ws[p[m]].kind != PinComplex
  {
    assert m < |p| - 1 ==> RecordingHop(ws, p, m, 0);
  }

  /** Every widget that a path of a pin enters, and whose input is chosen by
      selconn - selectors, and what has several inputs and is no mixer, audio
      inputs included - has chosen an enabled connection, and one that comes
      from a widget on such a path. */
  lemma SelectionsMade(ws: seq<Widget>, as0: seq<Assoc>, a: nat, ws': seq<Widget>, as': seq<Assoc>, k: nat,
                       p: seq<int>, m: nat)
    requires a < |as0| && AssocOk(as0[a]) && Unbound(ws, a) && InputTraced(ws, as0, a, true, ws', as')
    requires |as'| == |as0| && AssocOk(as'[a]) && k < PINS && as0[a].pins[k] != 0
    requires RecordingTrail(ws, a, p, as'[a].dacs[k], 0) && p[0] == as0[a].pins[k] && 0 < m < |p|
    requires ws[p[0]].kind == PinComplex && ws[p[m]].selconn == -1
    requires ws[p[m]].kind == Selector || (ws[p[m]].kind != Mixer && |ws[p[m]].conns| > 1)
    ensures |ws'| == |ws|
    ensures var w, i := ws[p[m]], ws'[p[m]].selconn;
            && 0 <= i < |w.conns| && i < |w.connsenable| && w.connsenable[i]
            && exists j, p' :: 0 <= j < PINS && as0[a].pins[j] != 0 && RecordingTrail(ws, a, p', as'[a].dacs[k], 0)
                               && p'[0] == as0[a].pins[j] && w.conns[i] in p'
  {
    var pins, x := as0[a].pins, p[m];
    var adc, ws1 := SearchDone(ws, as0, a, ws', as');
    var g := View(ws, a);
    assert ThroughAt(g, pins, adc, PINS, ws1[x], ws'[x], a, x);
    TrailMeets(ws, a, p, adc, m);
    NoLaterPin(ws, a, p, adc, m);
    assert Entered(g, pins, adc, PINS, x);
    var y := ws[x].conns[ws'[x].selconn];
    assert Passed(g, pins, adc, PINS, y);
    var j :| 0 <= j < PINS && pins[j] != 0 && OnWalk(g, pins[j], adc, 0, y);
    var p' := MeetsTrail(ws, a, pins[j], adc, y);
  }

  /** No other widget has: who had a choice keeps it, and so does who has none
      to make. */
  lemma SelectionsKept(ws: seq<Widget>, as0: seq<Assoc>, a: nat, ws': seq<Widget>, as': seq<Assoc>, k: nat, x: nat)
    requires a < |as0| && AssocOk(as0[a]) && Unbound(ws, a) && InputTraced(ws, as0, a, true, ws', as')
    requires AllFresh(ws) && k < PINS && as0[a].pins[k] != 0 && x < |ws|
    ensures |ws'| == |ws| && |as'| == |as0| && AssocOk(as'[a])
    ensures ws'[x].selconn != ws[x].selconn ==>
              && ws[x].selconn == -1
              && (ws[x].kind == Selector || (ws[x].kind != Mixer && |ws[x].conns| > 1))
              && exists j, p :: 0 <= j < PINS && as0[a].pins[j] != 0 && RecordingTrail(ws, a, p, as'[a].dacs[k], 0)
                                && p[0] == as0[a].pins[j] && x in p
  {
    var pins := as0[a].pins;
    var adc, ws1 := SearchDone(ws, as0, a, ws', as');
    UndoneFresh(ws, ws1);
    var g := View(ws, a);
    assert ThroughAt(g, pins, adc, PINS, ws[x], ws'[x], a, x);
    if ws'[x].selconn != ws[x].selconn {
      var j :| 0 <= j < PINS && pins[j] != 0 && OnWalk(g, pins[j], adc, 0, x);
      var p := MeetsTrail(ws, a, pins[j], adc, x);
    }
  }

  /** If widget m of p is a selector, or has several inputs and is no mixer
      (audio inputs included), it has chosen an enabled connection from widget
      m - 1. */
  ghost predicate ChoosesHop(ws: seq<Widget>, ws': seq<Widget>, p: seq<int>, m: int)
  {
    0 < m < |p| && 0 <= p[m] < |ws| && p[m] < |ws'| &&
    var w, i := ws[p[m]], ws'[p[m]].selconn;
    w.kind == Selector || (w.kind != Mixer && |w.conns| > 1) ==>
      0 <= i < |w.conns| && i < |w.connsenable| && w.connsenable[i] && w.conns[i] == p[m - 1]
  }

  /** On an acyclic graph with no choice preset, the first pin has a live walk
      to the ADC on which every widget that has to has chosen the hop that enters
      it. */
  lemma FirstPinSelected(ws: seq<Widget>, as0: seq<Assoc>, a: nat, ws': seq<Widget>, as': seq<Assoc>, k: nat)
    returns (p: seq<int>)
    requires a < |as0| && AssocOk(as0[a]) && Unbound(ws, a) && InputTraced(ws, as0, a, true, ws', as')
    requires k < PINS && as0[a].pins[k] != 0 && forall j :: 0 <= j < k ==> as0[a].pins[j] == 0
    requires Acyclic(ws) && forall n :: Live(ws, n) && ws[n].bindAssoc < 0 ==> ws[n].selconn == -1
    ensures |ws'| == |ws| && |as'| == |as0| && AssocOk(as'[a])
    ensures RecordingTrail(ws, a, p, as'[a].dacs[k], 0) && p[0] == as0[a].pins[k]
    ensures LiveWalk(ws', p, a, k)
    ensures forall m :: 0 < m < |p| ==> ChoosesHop(ws, ws', p, m)
  {
    var adc, ws1 := SearchDone(ws, as0, a, ws', as');
    p := SteeredTrail(ws, ws1, ws', a, as0[a].pins, adc, k);
  }

  lemma SteeredTrail(ws: seq<Widget>, ws1: seq<Widget>, ws': seq<Widget>, a: nat, pins: seq<int>, adc: int, k: nat)
    returns (p: seq<int>)
    requires |pins| == PINS && Unbound(ws, a) && JoinedTo(ws, ws1, ws', a, pins, adc)
    requires k < PINS && pins[k] != 0 && forall j :: 0 <= j < k ==> pins[j] == 0
    requires Acyclic(ws) && forall n :: Live(ws, n) && ws[n].bindAssoc < 0 ==> ws[n].selconn == -1
    ensures |ws'| == |ws| && RecordingTrail(ws, a, p, adc, 0) && p[0] == pins[k] && LiveWalk(ws', p, a, k)
    ensures forall m :: 0 < m < |p| ==> ChoosesHop(ws, ws', p, m)
  {
    JoinedStructure(ws, ws1, ws', a, pins, adc);
    SameStructureAcyclic(ws, ws1);
    FirstUnchosen(ws, ws1, a, pins[k], adc);
    p :| IsWalk(View(ws, a), p, adc, 0) && p[0] == pins[k] && Steered(ws', p);
    WalkIff(ws, a, p, adc, 0);
    WalkCarried(ws1, ws', a, pins, adc, p, k);
    SteeredHops(ws, ws', p);
  }

  lemma JoinedStructure(ws: seq<Widget>, ws1: seq<Widget>, ws': seq<Widget>, a: nat, pins: seq<int>, adc: int)
    requires |pins| == PINS && JoinedTo(ws, ws1, ws', a, pins, adc)
    ensures AllSameStructure(ws, ws1) && AllSameStructure(ws, ws')
  {
    PinsJoinedStructure(ws1, ws', a, pins, adc);
    SameTwice(ws, ws1, ws');
  }

  lemma SameTwice(ws: seq<Widget>, ws1: seq<Widget>, ws2: seq<Widget>)
    requires AllSameStructure(ws, ws1) && AllSameStructure(ws1, ws2)
    ensures AllSameStructure(ws, ws2)
  {
  }

  lemma WalkCarried(ws: seq<Widget>, ws': seq<Widget>, a: nat, pins: seq<int>, adc: int, p: seq<int>, k: nat)
    requires |pins| == PINS && k < PINS && pins[k] != 0 && PinsJoined(ws, ws', a, pins, adc, PINS)
    requires IsWalk(View(ws, a), p, adc, 0) && p[0] == pins[k]
    ensures LiveWalk(ws', p, a, k)
  {
    forall m | 0 <= m < |p| ensures Carries(ws', p[m], a, k) {
      WalkMeets(View(ws, a), p, adc, 0, m);
      PassedCarries(ws, ws', a, pins, adc, k, p[m]);
    }
    PinsJoinedStructure(ws, ws', a, pins, adc);
    WalkLive(ws, ws', a, adc, p, 0, k);
  }

  lemma SteeredHops(ws: seq<Widget>, ws': seq<Widget>, p: seq<int>)
    requires AllSameStructure(ws, ws') && Steered(ws', p) && forall m :: 0 <= m < |p| ==> 0 <= p[m] < |ws|
    ensures forall m :: 0 < m < |p| ==> ChoosesHop(ws, ws', p, m)
  {
    forall m | 0 < m < |p| ensures ChoosesHop(ws, ws', p, m) {
      assert SameStructure(ws[p[m]], ws'[p[m]]) && SteeredHop(ws', p, m);
    }
  }

  lemma FirstUnchosen(ws: seq<Widget>, ws1: seq<Widget>, a: nat, n: int, adc: int)
    requires Unbound(ws, a) && Undone(ws, ws1)
    requires forall x :: Live(ws, x) && ws[x].bindAssoc < 0 ==> ws[x].selconn == -1
    ensures Unchosen(ws1, Met(View(ws, a), n, adc, 0) - {n})
  {
    forall x | x in Met(View(ws, a), n, adc, 0) ensures 0 <= x < |ws| && ws1[x].selconn == -1 {
      MetOpen(View(ws, a), n, adc, 0, x);
      assert Live(ws, x) && ws[x].bindAssoc < 0;
    }
  }
}
