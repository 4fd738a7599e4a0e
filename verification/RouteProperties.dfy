/** What the output search means for the routes it leaves, and the inputs on
    which the driver's search does less than one would expect. */
module RouteProperties {
  import opened HdaGraph
  import opened OutputTrace
  import opened OutputAssociation

  /** The routes of two pins have no widget in common, unless redirection is
      real and one of the pins is the jack and the other the pin it shares with. */
  lemma RoutesDisjoint(ws: seq<Widget>, asc: Assoc, a: nat, s: int, t: int, r: Route, r': Route, sel: bool, sel': bool)
    requires Exclusive(ws, asc, a) && s != t
    requires LiveRoute(ws, r, a, s, sel) && LiveRoute(ws, r', a, t, sel')
    ensures || Nodes(r) !! Nodes(r')
            || (!asc.fakeredir && asc.hpredir >= 0
                && (s, t) in {(asc.jackPin, asc.hpredir), (asc.hpredir, asc.jackPin)})
  {
    LiveRouteNodes(ws, r, a, s, sel);
    LiveRouteNodes(ws, r', a, t, sel');
    if n :| n in Nodes(r) && n in Nodes(r') {
      assert Carries(ws, n, a, s) && Carries(ws, n, a, t);
      assert Held(ws[n], asc, PINS);
    }
  }

  /** Routes of different associations have no widget in common. */
  lemma AssociationsDisjoint(ws: seq<Widget>, a: nat, b: nat, s: int, t: int, r: Route, r': Route, sel: bool,
                             sel': bool)
    requires a != b
    requires LiveRoute(ws, r, a, s, sel) && LiveRoute(ws, r', b, t, sel')
    ensures Nodes(r) !! Nodes(r')
  {
    LiveRouteNodes(ws, r, a, s, sel);
    LiveRouteNodes(ws, r', b, t, sel');
    forall n | n in Nodes(r) ensures n !in Nodes(r') {
      assert Carries(ws, n, a, s);
      assert n in Nodes(r') ==> Carries(ws, n, b, t);
    }
  }

  /** Two present pins share a DAC exactly when redirection is real and one is
      the jack and the other the pin it shares with. */
  lemma DacsDistinct(ws: seq<Widget>, asc: Assoc, a: nat, s: nat, t: nat, sel: bool)
    requires AssocOk(asc) && s < PINS && t < PINS && s != t
    requires asc.pins[s] != 0 && asc.pins[t] != 0
    requires Exclusive(ws, asc, a) && AllRouted(ws, asc, a, 0, sel)
    ensures asc.dacs[s] == asc.dacs[t] <==>
            !asc.fakeredir && asc.hpredir >= 0 && (s, t) in {(asc.jackPin, asc.hpredir), (asc.hpredir, asc.jackPin)}
  {
    assert PinRouted(ws, asc, a, s, sel) && PinRouted(ws, asc, a, t, sel);
    var r :| LiveRoute(ws, r, a, s, sel) && Source(r) == asc.pins[s] && Target(r) == asc.dacs[s];
    var r' :| LiveRoute(ws, r', a, t, sel) && Source(r') == asc.pins[t] && Target(r') == asc.dacs[t];
    RoutesDisjoint(ws, asc, a, s, t, r, r', sel, sel);
    LiveRouteNodes(ws, r, a, s, sel);
    LiveRouteNodes(ws, r', a, t, sel);
    if asc.dacs[s] == asc.dacs[t] {
      assert Target(r) in Nodes(r) * Nodes(r');
    }
  }

  // ----- Which pins the search leaves with a route by selected hops -----

  /** The selections of the walk `all` lead from its pin to its DAC. */
  ghost predicate Leads(ws: seq<Widget>, all: Route)
  {
    exists w :: SelectedWalk(ws, w, all) && Source(w) == Source(all) && Target(w) == Target(all)
  }

  /** r is the choice of pin i in the least assignment. */
  ghost predicate LeastChoice(ws: seq<Widget>, as0: seq<Assoc>, a: nat, i: nat, r: Route)
    requires InRange(as0, a, i)
  {
    && Choice(ws, as0, a, i, r) && AssignableAfter(ws, as0, a, i, r)
    && forall r' :: Choice(ws, as0, a, i, r') && Target(r') < Target(r) ==> !AssignableAfter(ws, as0, a, i, r')
  }

  lemma LeastChoiceUnique(ws: seq<Widget>, as0: seq<Assoc>, a: nat, i: nat, r: Route, r': Route)
    requires InRange(as0, a, i) && LeastChoice(ws, as0, a, i, r) && LeastChoice(ws, as0, a, i, r')
    ensures r == r'
  {
    FirstChoiceUnique(ws, QueryOf(as0, a, SharedSeq(as0[a], i), 0), r, r', 0);
  }

  /** The selections of every walk of the least assignment lead to its DAC. */
  ghost predicate SelectionsLead(ws: seq<Widget>, as0: seq<Assoc>, a: nat, s: nat)
    requires a < |as0| && AssocOk(as0[a]) && as0[a].hpredir < PINS && s <= PINS
    decreases PINS - s
  {
    var i := NextPin(as0[a].pins, s);
    i == PINS || exists r :: LeastChoice(ws, as0, a, i, r) && Leads(ws, r) && SelectionsLeadAfter(ws, as0, a, i, r)
  }

  ghost predicate SelectionsLeadAfter(ws: seq<Widget>, as0: seq<Assoc>, a: nat, i: nat, r: Route)
    requires InRange(as0, a, i)
    decreases PINS - i, 0
  {
    SelectionsLead(Mark(ws, r, a, i), Noted(as0, a, i, Target(r)), a, i + 1)
  }

  /** Marking a walk for pin s leaves the routes of another pin as they are. */
  lemma {:induction false} MarkKeepsRoute(ws: seq<Widget>, asc: Assoc, q: Query, all: Route, s: nat, r: Route, j: int)
    requires q.assoc >= 0 && Sane(ws, asc, q.assoc, s) && IsRoute(ws, q, all, 0) && j != s
    ensures LiveRoute(Mark(ws, all, q.assoc, s), r, q.assoc, j, true) <==> LiveRoute(ws, r, q.assoc, j, true)
  {
    RouteNodes(ws, q, all, 0);
    var n, ms := Source(r), Mark(ws, all, q.assoc, s);
    if Live(ws, n) {
      assert Carries(ms, n, q.assoc, j) <==> Carries(ws, n, q.assoc, j);
      assert Carries(ws, n, q.assoc, j) && Selecting(ws[n]) ==> ms[n].selconn == ws[n].selconn;
    }
    match r
    case Dac(_) =>
    case Via(_, _, rest) => MarkKeepsRoute(ws, asc, q, all, s, rest, j);
  }

  /** The search may go on after the choice of pin i. */
  lemma ChoiceReady(ws: seq<Widget>, as0: seq<Assoc>, a: nat, i: nat, r: Route)
    requires Ready(ws, as0, a, i) && i < PINS && Choice(ws, as0, a, i, r)
    ensures Ready(Mark(ws, r, a, i), Noted(as0, a, i, Target(r)), a, i + 1)
  {
    var q := QueryOf(as0, a, SharedSeq(as0[a], i), 0);
    MarkSane(ws, as0[a], q, r, i);
    SaneDacs(Mark(ws, r, a, i), as0[a], Noted(as0, a, i, Target(r))[a], a, i + 1);
  }

  /** The least assignment leaves the routes of the pins below s, and their DACs. */
  lemma {:induction false} AssignmentKeeps(ws: seq<Widget>, as0: seq<Assoc>, a: nat, s: nat, ws': seq<Widget>,
                                           as': seq<Assoc>, j: int)
    requires Ready(ws, as0, a, s) && as0[a].hpredir < PINS && LeastAssignment(ws, as0, a, s, ws', as') && j < s
    ensures |as'| == |as0| && AssocOk(as'[a]) && as'[a].pins == as0[a].pins
    ensures 0 <= j ==> as'[a].dacs[j] == as0[a].dacs[j]
    ensures forall r :: LiveRoute(ws', r, a, j, true) <==> LiveRoute(ws, r, a, j, true)
    decreases PINS - s
  {
    var i := NextPin(as0[a].pins, s);
    if i < PINS {
      SaneLater(ws, as0[a], a, s, i);
      var r :| Choice(ws, as0, a, i, r) && LeastBy(ws, as0, a, i, r, ws', as');
      ChoiceReady(ws, as0, a, i, r);
      AssignmentKeeps(Mark(ws, r, a, i), Noted(as0, a, i, Target(r)), a, i + 1, ws', as', j);
      forall w ensures LiveRoute(ws', w, a, j, true) <==> LiveRoute(ws, w, a, j, true) {
        MarkKeepsRoute(ws, as0[a], QueryOf(as0, a, SharedSeq(as0[a], i), 0), r, i, w, j);
      }
    }
  }

  /** Pin i of the least assignment ends with a route by selected hops exactly
      when the selections of its walk lead to its DAC. */
  lemma ChosenPinSelected(ws: seq<Widget>, as0: seq<Assoc>, a: nat, i: nat, r: Route, ws': seq<Widget>, as': seq<Assoc>)
    requires Ready(ws, as0, a, i) && i < PINS && as0[a].hpredir < PINS && Choice(ws, as0, a, i, r)
    requires LeastAssignment(Mark(ws, r, a, i), Noted(as0, a, i, Target(r)), a, i + 1, ws', as')
    ensures |as'| == |as0| && AssocOk(as'[a]) && (PinRouted(ws', as'[a], a, i, true) <==> Leads(ws, r))
  {
    var q, as1 := QueryOf(as0, a, SharedSeq(as0[a], i), 0), Noted(as0, a, i, Target(r));
    ChoiceReady(ws, as0, a, i, r);
    AssignmentKeeps(Mark(ws, r, a, i), as1, a, i + 1, ws', as', i);
    SaneDacs(ws, as0[a], as1[a], a, i);
    PinSelectedIff(ws, as1[a], q, r, i);
  }

  /** Every present pin from s on has a route by selected hops to its DAC. */
  ghost predicate AllSelected(ws: seq<Widget>, asc: Assoc, a: nat, s: nat)
    requires AssocOk(asc)
  {
    forall j :: s <= j < PINS && asc.pins[j] != 0 ==> PinRouted(ws, asc, a, j, true)
  }

  lemma AllSelectedNext(ws: seq<Widget>, asc: Assoc, a: nat, s: nat, i: nat, next: nat)
    requires AssocOk(asc) && s <= PINS && i == NextPin(asc.pins, s) < PINS && next == i + 1
    ensures AllSelected(ws, asc, a, s) <==> PinRouted(ws, asc, a, i, true) && AllSelected(ws, asc, a, next)
  {
  }

  lemma SelectionsLeadBy(ws: seq<Widget>, as0: seq<Assoc>, a: nat, s: nat, i: nat, r: Route)
    requires InRange(as0, a, i) && s <= PINS && i == NextPin(as0[a].pins, s) && LeastChoice(ws, as0, a, i, r)
    ensures SelectionsLead(ws, as0, a, s) <==> Leads(ws, r) && SelectionsLeadAfter(ws, as0, a, i, r)
  {
    if r' :| LeastChoice(ws, as0, a, i, r') && Leads(ws, r') && SelectionsLeadAfter(ws, as0, a, i, r') {
      LeastChoiceUnique(ws, as0, a, i, r, r');
    }
  }

  /** Without user patches, where the assignment found is the least one: all
      pins from s on end with a route by selected hops exactly when the
      selections of all its walks lead to their DACs. */
  lemma {:induction false} AllSelectedIff(ws: seq<Widget>, as0: seq<Assoc>, a: nat, s: nat, ws': seq<Widget>,
                                          as': seq<Assoc>)
    requires Ready(ws, as0, a, s) && as0[a].hpredir < PINS && LeastAssignment(ws, as0, a, s, ws', as')
    ensures |as'| == |as0| && AssocOk(as'[a]) && as'[a].pins == as0[a].pins
    ensures AllSelected(ws', as'[a], a, s) <==> SelectionsLead(ws, as0, a, s)
    decreases PINS - s
  {
    AssignmentKeeps(ws, as0, a, s, ws', as', -1);
    var i := NextPin(as0[a].pins, s);
    if i < PINS {
      SaneLater(ws, as0[a], a, s, i);
      var r :| Choice(ws, as0, a, i, r) && LeastBy(ws, as0, a, i, r, ws', as');
      var ms, as1 := Mark(ws, r, a, i), Noted(as0, a, i, Target(r));
      LeastIsAssignable(ms, as1, a, i + 1, ws', as');
      ChoiceReady(ws, as0, a, i, r);
      ChosenPinSelected(ws, as0, a, i, r, ws', as');
      AllSelectedIff(ms, as1, a, i + 1, ws', as');
      AllSelectedNext(ws', as'[a], a, s, i, i + 1);
      SelectionsLeadBy(ws, as0, a, s, i, r);
    }
  }

  // ----- A jack redirected to itself -----

  /** A jack that is itself the pin to share with, or comes before it, is
      never traced: real redirection needs the lower pin traced first. */
  lemma RedirectToSelfFails(ws: seq<Widget>, as0: seq<Assoc>, a: nat, i: nat)
    requires Ready(ws, as0, a, i) && i < PINS && as0[a].pins[i] != 0
    requires Redirects(as0[a], i) && as0[a].hpredir >= i
    ensures !Assignable(ws, as0, a, i)
    ensures forall min :: Probe(ws, QueryOf(as0, a, SharedSeq(as0[a], i), min), as0[a].pins[i], 0) == 0
  {
    forall min | Probe(ws, QueryOf(as0, a, SharedSeq(as0[a], i), min), as0[a].pins[i], 0) != 0 ensures false {
      var q := QueryOf(as0, a, SharedSeq(as0[a], i), min);
      ProbeSound(ws, q, as0[a].pins[i], 0);
      ReachedDac(ws, q, as0[a].pins[i], Probe(ws, q, as0[a].pins[i], 0), 0);
    }
    forall r | Choice(ws, as0, a, i, r) ensures false {
      RouteTarget(ws, QueryOf(as0, a, SharedSeq(as0[a], i), 0), r, 0);
    }
  }

  /** Such an input, as audioAssociationParse makes it of headphones on the
      lower of two sequences: pin 2 is the jack and the pin to share with.  It
      does reach the DAC 1. */
  lemma RedirectToSelf() returns (ws: seq<Widget>, as0: seq<Assoc>)
    ensures |as0| == 1 && AssocOk(as0[0]) && as0[0].pincnt == 2 && as0[0].jackPin == 0 && as0[0].hpredir == 0
    ensures !as0[0].fakeredir && as0[0].pins[0] == 2 && as0[0].pins[1] == 3
    ensures !Assignable(ws, as0, 0, 0)
    ensures Reach(ws, Query(0, -1, 0, 0), as0[0].pins[0], 1, 0)
  {
    ws := [PlainWidget(VendorDefined, []).(enable := false),
           PlainWidget(AudioOutput, []), PlainWidget(PinComplex, [1]), PlainWidget(PinComplex, [1])];
    var pins := seq(PINS, s => if s == 0 then 2 else if s == 1 then 3 else 0);
    as0 := [Assoc(true, 0, Out, 2, false, 0, 0, pins, seq(PINS, _ => 0), 0, 1, 0)];
    RedirectToSelfFails(ws, as0, 0, 0);
    assert Reach(ws, Query(0, -1, 0, 0), ws[2].conns[0], 1, 1);
  }

  // ----- A selector and a mixer that feed each other -----

  /** Pin 4 - selector 1; the selector takes mixer 2, which takes it, or DAC 3.
      With `bypass` the mixer takes the DAC as well. */
  function LoopGraph(bypass: bool): seq<Widget>
  {
    [PlainWidget(VendorDefined, []).(enable := false),
     PlainWidget(Selector, [2, 3]),
     PlainWidget(Mixer, if bypass then [1, 3] else [1]),
     PlainWidget(AudioOutput, []),
     PlainWidget(PinComplex, [1])]
  }

  /** The walk from selector 1 that goes round `n` times before the DAC. */
  function Round(n: nat): Route
  {
    if n == 0 then Via(1, 1, Dac(3)) else Via(1, 0, Via(2, 0, Round(n - 1)))
  }

  lemma {:induction false} RoundIsRoute(q: Query, n: nat, bypass: bool)
    requires q == Query(0, -1, 0, 0) && n <= 4
    ensures IsRoute(LoopGraph(bypass), q, Round(n), 9 - 2 * n)
    ensures FirstChoice(LoopGraph(bypass), q, Round(n), 9 - 2 * n)
    ensures Source(Round(n)) == 1 && Target(Round(n)) == 3
  {
    var ws := LoopGraph(bypass);
    if n == 0 {
      assert forall k :: !Reach(ws, q, k, 3, 11);
      assert !Reach(ws, q, ws[1].conns[0], 3, 10);
    } else {
      RoundIsRoute(q, n - 1, bypass);
    }
  }

  /** The route the trace of pin 4 marks. */
  lemma MarkedRound(q: Query, bypass: bool) returns (r: Route)
    requires q == Query(0, -1, 0, 0)
    ensures IsRoute(LoopGraph(bypass), q, r, 0) && FirstChoice(LoopGraph(bypass), q, r, 0)
    ensures Source(r) == 4 && Target(r) == 3
    ensures Nodes(r) == {1, 2, 3, 4} && LeavesBy(r, 4) == 0 && LeavesBy(r, 1) == 0 && LeavesBy(r, 2) == 0
    ensures (1, 1) in Hops(r)
  {
    r := Via(4, 0, Round(4));
    RoundIsRoute(q, 4, bypass);
    RoundNodes(4);
    assert Round(4) == Via(1, 0, Via(2, 0, Round(3)));
  }

  lemma {:induction false} RoundNodes(n: nat)
    ensures Nodes(Round(n)) == if n == 0 then {1, 3} else {1, 2, 3}
    ensures (1, 1) in Hops(Round(n))
  {
    if n > 0 {
      RoundNodes(n - 1);
    }
  }

  lemma {:induction false} LoopNeverSelected(w: Route, all: Route)
    requires Source(w) in {1, 2, 4} && LeavesBy(all, 1) == 0
    ensures !SelectedWalk(LoopGraph(false), w, all)
  {
    if w.Via? && SelectedWalk(LoopGraph(false), w, all) {
      assert Selecting(LoopGraph(false)[1]);
      LoopNeverSelected(w.rest, all);
    }
  }

  /** On a cyclic graph the trace of pin 4 succeeds, but the selector is left
      selecting the loop: no route by selected hops remains. */
  lemma CycleLosesSelection() returns (ws: seq<Widget>, q: Query, r: Route)
    ensures ws == LoopGraph(false) && !Acyclic(ws)
    ensures IsRoute(ws, q, r, 0) && FirstChoice(ws, q, r, 0) && Source(r) == 4 && Target(r) == 3
    ensures forall w :: Source(w) == 4 ==> !LiveRoute(Mark(ws, r, 0, 0), w, 0, 0, true)
  {
    ws := LoopGraph(false);
    q := Query(0, -1, 0, 0);
    r := MarkedRound(q, false);
    forall w | Source(w) == 4 ensures !LiveRoute(Mark(ws, r, 0, 0), w, 0, 0, true) {
      LoopNeverSelected(w, r);
      MarkedSelected(ws, q, r, w, 0);
    }
    assert Enabled(ws[1], 0) && Enabled(ws[2], 0);
    assert ws[1].conns[0] == 2 && ws[2].conns[0] == 1;
  }

  lemma BypassSelected(ws: seq<Widget>, all: Route) returns (w: Route)
    requires ws == LoopGraph(true)
    requires Nodes(all) == {1, 2, 3, 4} && LeavesBy(all, 4) == 0 && LeavesBy(all, 1) == 0
    ensures SelectedWalk(ws, w, all) && Source(w) == 4 && Target(w) == 3
  {
    w := Dac(3);
    assert SelectedWalk(ws, w, all);
    w := Via(2, 1, w);
    assert SelectedWalk(ws, w, all);
    w := Via(1, 0, w);
    assert SelectedWalk(ws, w, all);
    w := Via(4, 0, w);
  }

  lemma LeavesTwice(ws: seq<Widget>, r: Route)
    requires |ws| > 1 && Selecting(ws[1]) && (1, 1) in Hops(r) && LeavesBy(r, 1) == 0
    ensures !ExitsAgree(ws, r)
  {
    var h := (1, 1);
    assert h in Hops(r) && LeavesBy(r, h.0) != h.1;
  }

  /** When the mixer takes the DAC as well, the marked walk still leaves the
      selector by two connections, but its selections do lead to the DAC. */
  lemma CycleKeepsSelection() returns (ws: seq<Widget>, q: Query, r: Route, w: Route)
    ensures ws == LoopGraph(true) && IsRoute(ws, q, r, 0) && FirstChoice(ws, q, r, 0) && !ExitsAgree(ws, r)
    ensures LiveRoute(Mark(ws, r, 0, 0), w, 0, 0, true) && Source(w) == Source(r) && Target(w) == Target(r)
  {
    ws, q := LoopGraph(true), Query(0, -1, 0, 0);
    r := MarkedRound(q, true);
    w := BypassSelected(ws, r);
    BypassMarked(ws, q, r, w);
  }

  lemma BypassMarked(ws: seq<Widget>, q: Query, r: Route, w: Route)
    requires |ws| > 1 && Selecting(ws[1]) && (1, 1) in Hops(r) && LeavesBy(r, 1) == 0
    requires IsRoute(ws, q, r, 0) && NotCarried(ws, q.assoc, 0) && SelectedWalk(ws, w, r)
    ensures !ExitsAgree(ws, r) && LiveRoute(Mark(ws, r, q.assoc, 0), w, q.assoc, 0, true)
  {
    LeavesTwice(ws, r);
    MarkedSelected(ws, q, r, w, 0);
  }

  /** A retaskable jack closes no cycle: pin 3 takes mixer 2, which takes DAC 1
      and the pin. */
  lemma RetaskableJackAcyclic()
    ensures Acyclic([PlainWidget(VendorDefined, []).(enable := false), PlainWidget(AudioOutput, []),
                     PlainWidget(Mixer, [1, 3]), PlainWidget(PinComplex, [2])])
  {
    var ws := [PlainWidget(VendorDefined, []).(enable := false), PlainWidget(AudioOutput, []),
               PlainWidget(Mixer, [1, 3]), PlainWidget(PinComplex, [2])];
    assert Ranks(ws, [0, 0, 1, 2]);
  }

  /** A selection preset by a user patch does not survive a failed trace:
      pin 2 is preset to its only connection, the DAC 1. */
  lemma PresetSelectionLost() returns (ws: seq<Widget>, q: Query, r: Route)
    ensures |ws| == 3 && IsRoute(ws, q, r, 0) && ws[2].selconn == 0
    ensures Undo(Mark(ws, r, 0, 0), 0, 0)[2].selconn == -1
  {
    ws := [PlainWidget(VendorDefined, []).(enable := false),
           PlainWidget(AudioOutput, []),
           PlainWidget(PinComplex, [1]).(selconn := 0)];
    q := Query(0, -1, 0, 0);
    r := Via(2, 0, Dac(1));
    assert IsRoute(ws, q, Dac(1), 1);
    var ms := Mark(ws, r, 0, 0);
    assert ms[2].bindSeqMask - {0} == {};
  }
}
