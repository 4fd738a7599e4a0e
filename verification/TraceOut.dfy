/** Tracing an output association: audioUndoTrace and the backtracking search
    audioTraceAssociationOut. */
module OutputAssociation {
  import opened HdaGraph
  import opened OutputTrace

  // ----- audioUndoTrace -----

  /** The widget with its binding erased. */
  function Cleared(w: Widget): Widget
  {
    w.(bindAssoc := -1, bindSeqMask := {}, selconn := -1, traceDir := {})
  }

  /** What undoing pin s (every pin for s < 0) of association a leaves of w. */
  function UndoWidget(w: Widget, a: int, s: int): Widget
  {
    if !w.enable || w.bindAssoc != a then w
    else if s < 0 || w.bindSeqMask - {s} == {} then Cleared(w)
    else w.(bindSeqMask := w.bindSeqMask - {s})
  }

  function Undo(ws: seq<Widget>, a: int, s: int): (us: seq<Widget>)
    ensures |us| == |ws|
  {
    seq(|ws|, n requires 0 <= n < |ws| => UndoWidget(ws[n], a, s))
  }

  method AudioUndoTrace(fg: FunctionGroup, assocNum: int, s: int)
    requires fg.ValidWidgets()
    modifies fg.widgets
    ensures fg.ValidWidgets()
    ensures fg.widgets[..] == Undo(old(fg.widgets[..]), assocNum, s)
  {
    ghost var ws := fg.widgets[..];
    var i := fg.startNode;
    while i < fg.widgets.Length
      invariant fg.startNode <= i <= fg.widgets.Length
      invariant forall n :: 0 <= n < i ==> fg.widgets[n] == UndoWidget(ws[n], assocNum, s)
      invariant forall n :: i <= n < fg.widgets.Length ==> fg.widgets[n] == ws[n]
    {
      if fg.widgets[i].enable && fg.widgets[i].bindAssoc == assocNum {
        if s >= 0 {
          fg.widgets[i] := fg.widgets[i].(bindSeqMask := fg.widgets[i].bindSeqMask - {s});
          if fg.widgets[i].bindSeqMask == {} {
            fg.widgets[i] := fg.widgets[i].(bindAssoc := -1);
            fg.widgets[i] := fg.widgets[i].(selconn := -1);
            fg.widgets[i] := fg.widgets[i].(traceDir := {});
          }
        } else {
          fg.widgets[i] := fg.widgets[i].(bindAssoc := -1);
          fg.widgets[i] := fg.widgets[i].(bindSeqMask := {});
          fg.widgets[i] := fg.widgets[i].(selconn := -1);
          fg.widgets[i] := fg.widgets[i].(traceDir := {});
        }
      }
      i := i + 1;
    }
    SameStructureOk(fg.startNode, ws, fg.widgets[..]);
  }

  // ----- The states the search works in -----

  /** Pin s is the jack and takes the DAC of pin hpredir (real redirection). */
  predicate Redirects(asc: Assoc, s: int)
  {
    s == asc.jackPin && !asc.fakeredir && asc.hpredir >= 0
  }

  /** b and c are the redirected jack pin and the pin it shares with. */
  predicate MayShare(asc: Assoc, b: int, c: int)
  {
    Redirects(asc, b) && c == asc.hpredir
  }

  /** How the search keeps a widget it has given to pins below s: only a
      redirected jack shares, and a selecting widget has made its choice. */
  ghost predicate Held(w: Widget, asc: Assoc, s: int)
  {
    && w.bindSeqMask != {}
    && (forall b :: b in w.bindSeqMask ==> 0 <= b < s)
    && (forall b, c :: b in w.bindSeqMask && c in w.bindSeqMask ==>
          b == c || MayShare(asc, b, c) || MayShare(asc, c, b))
    && Out in w.traceDir
    && (Selecting(w) ==> 0 <= w.selconn < |w.conns|)
  }

  /** Unbound widgets carry no pin, those of association a are Held. */
  ghost predicate Sane(ws: seq<Widget>, asc: Assoc, a: int, s: int)
  {
    forall n :: Live(ws, n) ==>
      && (ws[n].bindAssoc < 0 ==> ws[n].bindSeqMask == {})
      && (ws[n].bindAssoc == a ==> Held(ws[n], asc, s))
  }

  /** The widgets of association a are shared by redirected jacks only. */
  ghost predicate Exclusive(ws: seq<Widget>, asc: Assoc, a: int)
  {
    forall n :: Live(ws, n) && ws[n].bindAssoc == a ==> Held(ws[n], asc, PINS)
  }

  /** Every unbound widget is as audioParse left it. */
  ghost predicate AllFresh(ws: seq<Widget>)
  {
    forall n :: Live(ws, n) && ws[n].bindAssoc < 0 ==> ws[n] == Cleared(ws[n])
  }

  /** ws' is ws, except that bindings of unbound widgets may have been erased. */
  ghost predicate Undone(ws: seq<Widget>, ws': seq<Widget>)
  {
    && |ws'| == |ws|
    && forall n :: 0 <= n < |ws| ==>
         || ws'[n] == ws[n]
         || (ws[n].enable && ws[n].bindAssoc < 0 && ws'[n] == Cleared(ws[n]))
  }

  lemma UndoneFresh(ws: seq<Widget>, ws': seq<Widget>)
    requires Undone(ws, ws') && AllFresh(ws)
    ensures ws' == ws
  {
    forall n | 0 <= n < |ws| ensures ws'[n] == ws[n] {
      assert ws[n].enable ==> Live(ws, n);
    }
  }

  /** Undoing a marked walk, after a failed search beyond it, undoes it. */
  lemma UndoMark(ws: seq<Widget>, ws': seq<Widget>, asc: Assoc, q: Query, r: Route, s: nat)
    requires q.assoc >= 0 && Sane(ws, asc, q.assoc, s) && IsRoute(ws, q, r, 0)
    requires Undone(Mark(ws, r, q.assoc, s), ws')
    ensures Undone(ws, Undo(ws', q.assoc, s))
  {
    RouteNodes(ws, q, r, 0);
    var ms := Mark(ws, r, q.assoc, s);
    var us := Undo(ws', q.assoc, s);
    forall n | 0 <= n < |ws|
      ensures us[n] == ws[n] || (ws[n].enable && ws[n].bindAssoc < 0 && us[n] == Cleared(ws[n]))
    {
      if n in Nodes(r) {
        assert Live(ws, n);
        assert ms[n].bindAssoc == q.assoc && ws'[n] == ms[n];
        if ws[n].bindAssoc < 0 {
          assert ms[n].bindSeqMask == {s};
          assert ms[n].bindSeqMask - {s} == {};
        } else {
          assert ms[n].bindSeqMask - {s} == ws[n].bindSeqMask;
          assert Selecting(ws[n]) ==> LeavesBy(r, n) == ws[n].selconn;
          assert ms[n] == ws[n].(bindSeqMask := ws[n].bindSeqMask + {s});
        }
      } else if ws[n].enable && ws[n].bindAssoc == q.assoc {
        assert Live(ws, n);
        assert ws'[n].bindSeqMask - {s} == ws[n].bindSeqMask;
      }
    }
  }

  /** Marking a walk and undoing it at once restores the widgets exactly when
      the unbound widgets of the walk were as audioParse left them. */
  lemma UndoMarkIff(ws: seq<Widget>, asc: Assoc, q: Query, r: Route, s: nat)
    requires q.assoc >= 0 && Sane(ws, asc, q.assoc, s) && IsRoute(ws, q, r, 0)
    ensures Undo(Mark(ws, r, q.assoc, s), q.assoc, s) == ws <==>
            forall n :: n in Nodes(r) && Live(ws, n) && ws[n].bindAssoc < 0 ==> ws[n] == Cleared(ws[n])
  {
    var ms := Mark(ws, r, q.assoc, s);
    UndoMark(ws, ms, asc, q, r, s);
    RouteNodes(ws, q, r, 0);
    var us := Undo(ms, q.assoc, s);
    forall n | 0 <= n < |ws|
      ensures us[n] == if n in Nodes(r) && ws[n].bindAssoc < 0 then Cleared(ws[n]) else ws[n]
    {
      if n in Nodes(r) && ws[n].bindAssoc < 0 {
        assert Live(ws, n);
        assert ms[n].bindSeqMask - {s} == {};
      } else if n !in Nodes(r) && ws[n].enable {
        assert Live(ws, n);
      }
    }
    if us == ws {
      forall n | n in Nodes(r) && Live(ws, n) && ws[n].bindAssoc < 0 ensures ws[n] == Cleared(ws[n]) {
        assert us[n] == Cleared(ws[n]);
      }
    }
  }

  // ----- Routes in the marked graph -----

  /** The widget is enabled and carries pin s of association a. */
  predicate Carries(ws: seq<Widget>, n: int, a: int, s: int)
  {
    Live(ws, n) && ws[n].bindAssoc == a && s in ws[n].bindSeqMask
  }

  /** r runs over enabled connections to an enabled audio output and through no
      other pin or converter, all its widgets carry pin s of association a, and
      (when `selected`) every hop out of a selecting widget is the selected
      one. */
  predicate LiveRoute(ws: seq<Widget>, r: Route, a: int, s: int, selected: bool)
  {
    Carries(ws, Source(r), a, s) &&
    match r
    case Dac(n) => ws[n].kind == AudioOutput
    case Via(n, i, rest) =>
      && ws[n].kind != AudioOutput && ws[n].kind != AudioInput
      && Enabled(ws[n], i)
      && ws[n].conns[i] == Source(rest)
      && (selected && Selecting(ws[n]) ==> ws[n].selconn == i)
      && LiveRoute(ws, rest, a, s, selected)
      && ws[Source(rest)].kind != PinComplex
  }

  lemma {:induction false} LiveRouteNodes(ws: seq<Widget>, r: Route, a: int, s: int, selected: bool)
    requires LiveRoute(ws, r, a, s, selected)
    ensures forall n :: n in Nodes(r) ==> Carries(ws, n, a, s)
    ensures Target(r) in Nodes(r) && Live(ws, Target(r)) && ws[Target(r)].kind == AudioOutput
    ensures Source(r) in Nodes(r)
  {
    match r
    case Dac(_) =>
    case Via(_, _, rest) => LiveRouteNodes(ws, rest, a, s, selected);
  }

  function Hops(r: Route): set<(int, int)>
  {
    match r
    case Dac(_) => {}
    case Via(n, i, rest) => {(n, i)} + Hops(rest)
  }

  /** Every selecting widget of r is always left by the same connection. */
  predicate ExitsAgree(ws: seq<Widget>, r: Route)
  {
    forall h :: h in Hops(r) && 0 <= h.0 < |ws| && Selecting(ws[h.0]) ==> LeavesBy(r, h.0) == h.1
  }

  /** A suffix of a marked walk, hop by hop. */
  lemma {:induction false} MarkedSuffix(ws: seq<Widget>, q: Query, all: Route, r: Route, depth: nat, s: int)
    requires IsRoute(ws, q, r, depth)
    requires Nodes(r) <= Nodes(all) && Hops(r) <= Hops(all)
    ensures LiveRoute(Mark(ws, all, q.assoc, s), r, q.assoc, s, false)
    ensures LiveRoute(Mark(ws, all, q.assoc, s), r, q.assoc, s, true) <==>
            forall h :: h in Hops(r) && 0 <= h.0 < |ws| && Selecting(ws[h.0]) ==> LeavesBy(all, h.0) == h.1
  {
    match r
    case Dac(n) =>
      assert n in Nodes(all);
    case Via(n, i, rest) =>
      assert n in Nodes(all) && (n, i) in Hops(r);
      MarkedSuffix(ws, q, all, rest, depth + 1, s);
      assert forall h :: h in Hops(r) <==> h == (n, i) || h in Hops(rest);
  }

  /** A marked walk is live; its hops are the selected ones exactly when the
      walk leaves every selecting widget by one connection only. */
  lemma MarkedRoute(ws: seq<Widget>, q: Query, r: Route, s: int)
    requires IsRoute(ws, q, r, 0)
    ensures LiveRoute(Mark(ws, r, q.assoc, s), r, q.assoc, s, false)
    ensures LiveRoute(Mark(ws, r, q.assoc, s), r, q.assoc, s, true) <==> ExitsAgree(ws, r)
  {
    MarkedSuffix(ws, q, r, r, 0, s);
  }

  /** w stays among the widgets of the walk `all`, runs over enabled
      connections to an audio output and through no later pin or converter, and
      leaves every selecting widget by the connection `all` first takes. */
  predicate SelectedWalk(ws: seq<Widget>, w: Route, all: Route)
  {
    Source(w) in Nodes(all) && 0 <= Source(w) < |ws| &&
    match w
    case Dac(n) => ws[n].kind == AudioOutput
    case Via(n, i, rest) =>
      && ws[n].kind != AudioOutput && ws[n].kind != AudioInput
      && Enabled(ws[n], i)
      && ws[n].conns[i] == Source(rest)
      && (Selecting(ws[n]) ==> LeavesBy(all, n) == i)
      && SelectedWalk(ws, rest, all)
      && ws[Source(rest)].kind != PinComplex
  }

  /** No widget has been given to pin s of association a. */
  ghost predicate NotCarried(ws: seq<Widget>, a: int, s: int)
  {
    forall n :: !Carries(ws, n, a, s)
  }

  /** The routes by selected hops once `all` has been marked, said of the
      widgets before. */
  lemma {:induction false} MarkedSelected(ws: seq<Widget>, q: Query, all: Route, w: Route, s: int)
    requires IsRoute(ws, q, all, 0) && NotCarried(ws, q.assoc, s)
    ensures LiveRoute(Mark(ws, all, q.assoc, s), w, q.assoc, s, true) <==> SelectedWalk(ws, w, all)
  {
    RouteNodes(ws, q, all, 0);
    var n := Source(w);
    var ms := Mark(ws, all, q.assoc, s);
    if Live(ws, n) && n !in Nodes(all) {
      assert !Carries(ws, n, q.assoc, s) && ms[n] == ws[n];
    }
    match w
    case Dac(_) =>
    case Via(_, _, rest) => MarkedSelected(ws, q, all, rest, s);
  }

  /** rank decreases along every enabled connection but those from a pin
      complex, which no route takes. */
  ghost predicate Ranks(ws: seq<Widget>, rank: seq<nat>)
  {
    && |rank| == |ws|
    && forall n, i :: 0 <= n < |ws| && Enabled(ws[n], i) && 0 <= ws[n].conns[i] < |ws|
                      && ws[ws[n].conns[i]].kind != PinComplex ==>
         rank[ws[n].conns[i]] < rank[n]
  }

  ghost predicate Acyclic(ws: seq<Widget>)
  {
    exists rank :: Ranks(ws, rank)
  }

  lemma {:induction false} RouteDescends(ws: seq<Widget>, q: Query, r: Route, depth: nat, rank: seq<nat>)
    requires Ranks(ws, rank) && IsRoute(ws, q, r, depth)
    ensures forall n :: n in Nodes(r) ==> 0 <= n < |ws| && rank[n] <= rank[Source(r)]
    ensures forall h :: h in Hops(r) ==> h.0 in Nodes(r) && LeavesBy(r, h.0) == h.1
  {
    match r
    case Dac(_) =>
    case Via(n, i, rest) =>
      RouteDescends(ws, q, rest, depth + 1, rank);
      assert Enabled(ws[n], i);
  }

  lemma AcyclicExitsAgree(ws: seq<Widget>, q: Query, r: Route)
    requires Acyclic(ws) && IsRoute(ws, q, r, 0)
    ensures ExitsAgree(ws, r)
  {
    var rank :| Ranks(ws, rank);
    RouteDescends(ws, q, r, 0, rank);
  }

  /** The search for association a may touch unbound widgets and its own; it
      never takes a pin or a choice away from a widget of its own. */
  ghost predicate Grown(ws: seq<Widget>, ws': seq<Widget>, a: int)
  {
    && |ws'| == |ws|
    && forall n :: 0 <= n < |ws| && ws'[n] != ws[n] ==>
         && ws[n].enable && SameStructure(ws[n], ws'[n])
         && ws'[n].bindAssoc in {a, -1}
         && (ws[n].bindAssoc < 0 || ws[n].bindAssoc == a)
         && (ws[n].bindAssoc == a ==>
               && ws'[n].bindAssoc == a && ws[n].bindSeqMask <= ws'[n].bindSeqMask
               && (Selecting(ws[n]) ==> ws'[n].selconn == ws[n].selconn))
  }

  lemma {:induction false} GrownRoute(ws: seq<Widget>, ws': seq<Widget>, a: int, r: Route, b: int, s: int,
                                      selected: bool)
    requires Grown(ws, ws', a) && b >= 0
    requires LiveRoute(ws, r, b, s, selected)
    ensures LiveRoute(ws', r, b, s, selected)
  {
    match r
    case Dac(_) =>
    case Via(_, _, rest) => GrownRoute(ws, ws', a, rest, b, s, selected);
  }

  // ----- audioTraceAssociationOut -----

  /** Pin s of the association has a live route to its DAC. */
  ghost predicate PinRouted(ws: seq<Widget>, asc: Assoc, a: int, s: int, selected: bool)
    requires AssocOk(asc) && 0 <= s < PINS
  {
    exists r :: LiveRoute(ws, r, a, s, selected) && Source(r) == asc.pins[s] && Target(r) == asc.dacs[s]
  }

  /** After pin s has been marked along `all` it has a route by selected hops
      exactly when the selections of `all` lead from the pin to the DAC. */
  lemma PinSelectedIff(ws: seq<Widget>, asc: Assoc, q: Query, all: Route, s: nat)
    requires IsRoute(ws, q, all, 0) && q.assoc >= 0 && s < PINS && Sane(ws, asc, q.assoc, s)
    requires AssocOk(asc) && asc.pins[s] == Source(all) && asc.dacs[s] == Target(all)
    ensures PinRouted(Mark(ws, all, q.assoc, s), asc, q.assoc, s, true) <==>
            exists w :: SelectedWalk(ws, w, all) && Source(w) == Source(all) && Target(w) == Target(all)
  {
    var ms := Mark(ws, all, q.assoc, s);
    assert NotCarried(ws, q.assoc, s) by {
      forall n ensures !Carries(ws, n, q.assoc, s) {
        assert Live(ws, n) && ws[n].bindAssoc == q.assoc ==> Held(ws[n], asc, s);
      }
    }
    forall w ensures LiveRoute(ms, w, q.assoc, s, true) <==> SelectedWalk(ws, w, all) {
      MarkedSelected(ws, q, all, w, s);
    }
  }

  /** Every present pin from `from` on is routed, a redirected jack to the
      DAC of the pin it shares with. */
  ghost predicate AllRouted(ws: seq<Widget>, asc: Assoc, a: int, from: int, selected: bool)
    requires AssocOk(asc)
  {
    forall s :: 0 <= s < PINS && from <= s && asc.pins[s] != 0 ==>
      && PinRouted(ws, asc, a, s, selected)
      && (Redirects(asc, s) ==> asc.hpredir < s && asc.dacs[s] == asc.dacs[asc.hpredir])
  }

  lemma GrownAllRouted(ws: seq<Widget>, ws': seq<Widget>, a: int, asc: Assoc, b: int, from: int, selected: bool)
    requires AssocOk(asc) && b >= 0
    requires Grown(ws, ws', a) && AllRouted(ws, asc, b, from, selected)
    ensures AllRouted(ws', asc, b, from, selected)
  {
    forall s | 0 <= s < PINS && from <= s && asc.pins[s] != 0 ensures PinRouted(ws', asc, b, s, selected) {
      var r :| LiveRoute(ws, r, b, s, selected) && Source(r) == asc.pins[s] && Target(r) == asc.dacs[s];
      GrownRoute(ws, ws', a, r, b, s, selected);
    }
  }

  /** Marking a walk for pin s keeps the search's state. */
  lemma MarkGrown(ws: seq<Widget>, asc: Assoc, q: Query, r: Route, s: nat)
    requires q.assoc >= 0 && Sane(ws, asc, q.assoc, s) && IsRoute(ws, q, r, 0)
    ensures Grown(ws, Mark(ws, r, q.assoc, s), q.assoc)
  {
    RouteNodes(ws, q, r, 0);
  }

  /** A free widget is held for one pin more once it is marked. */
  lemma MarkHeld(w: Widget, asc: Assoc, q: Query, s: nat, exit: int)
    requires Free(w, q) && (w.bindAssoc < 0 ==> w.bindSeqMask == {}) && (w.bindAssoc == q.assoc ==> Held(w, asc, s))
    requires if Redirects(asc, s) then q.dup == asc.hpredir else q.dup < 0
    requires Selecting(w) ==> 0 <= exit < |w.conns|
    ensures Held(MarkWidget(w, q.assoc, s, exit), asc, s + 1)
  {
    assert s in MarkWidget(w, q.assoc, s, exit).bindSeqMask;
  }

  lemma MarkSane(ws: seq<Widget>, asc: Assoc, q: Query, r: Route, s: nat)
    requires q.assoc >= 0 && Sane(ws, asc, q.assoc, s) && IsRoute(ws, q, r, 0)
    requires if Redirects(asc, s) then q.dup == asc.hpredir else q.dup < 0
    ensures Sane(Mark(ws, r, q.assoc, s), asc, q.assoc, s + 1)
    ensures Grown(ws, Mark(ws, r, q.assoc, s), q.assoc)
  {
    MarkGrown(ws, asc, q, r, s);
    RouteNodes(ws, q, r, 0);
    var ms := Mark(ws, r, q.assoc, s);
    forall n | Live(ms, n)
      ensures ms[n].bindAssoc < 0 ==> ms[n].bindSeqMask == {}
      ensures ms[n].bindAssoc == q.assoc ==> Held(ms[n], asc, s + 1)
    {
      assert Live(ws, n);
      if n in Nodes(r) {
        MarkHeld(ws[n], asc, q, s, LeavesBy(r, n));
      }
    }
  }

  lemma UndoneSane(ws: seq<Widget>, ws': seq<Widget>, asc: Assoc, a: int, s: int)
    requires Undone(ws, ws') && Sane(ws, asc, a, s) && a >= 0
    ensures Sane(ws', asc, a, s)
  {
    forall n | Live(ws', n)
      ensures ws'[n].bindAssoc < 0 ==> ws'[n].bindSeqMask == {}
      ensures ws'[n].bindAssoc == a ==> Held(ws'[n], asc, s)
    {
      assert Live(ws, n);
    }
  }

  /** The enabled graph does not change. */
  lemma SameStructureAcyclic(ws: seq<Widget>, ws': seq<Widget>)
    requires AllSameStructure(ws, ws')
    ensures Acyclic(ws) <==> Acyclic(ws')
  {
    if rank :| Ranks(ws, rank) {
      assert Ranks(ws', rank);
    }
    if rank :| Ranks(ws', rank) {
      assert Ranks(ws, rank);
    }
  }

  /** Only the DACs of the pins from s on have changed. */
  predicate DacsFrom(asc: Assoc, asc': Assoc, s: int)
  {
    && asc' == asc.(dacs := asc'.dacs)
    && |asc'.dacs| == |asc.dacs|
    && forall j :: 0 <= j < |asc.dacs| && j < s ==> asc'.dacs[j] == asc.dacs[j]
  }

  lemma SaneLater(ws: seq<Widget>, asc: Assoc, a: int, s: int, i: int)
    requires Sane(ws, asc, a, s) && s <= i
    ensures Sane(ws, asc, a, i)
  {
  }

  lemma SaneDacs(ws: seq<Widget>, asc: Assoc, asc': Assoc, a: int, s: int)
    requires Sane(ws, asc, a, s) && asc' == asc.(dacs := asc'.dacs)
    ensures Sane(ws, asc', a, s)
  {
    forall n | Live(ws, n) && ws[n].bindAssoc == a ensures Held(ws[n], asc', s) {
      assert Held(ws[n], asc, s);
      forall b, c | b in ws[n].bindSeqMask && c in ws[n].bindSeqMask
        ensures b == c || MayShare(asc', b, c) || MayShare(asc', c, b)
      {
        assert b == c || MayShare(asc, b, c) || MayShare(asc, c, b);
      }
    }
  }

  lemma {:induction false} RouteTarget(ws: seq<Widget>, q: Query, r: Route, depth: nat)
    requires IsRoute(ws, q, r, depth)
    ensures Live(ws, Target(r)) && EndsAt(ws[Target(r)], q, Target(r))
  {
    match r
    case Dac(_) =>
    case Via(_, _, rest) => RouteTarget(ws, q, rest, depth + 1);
  }

  // ----- Which assignment the search finds -----

  /** The sequence whose DAC pin i has to share, -1 for none. */
  function SharedSeq(asc: Assoc, i: int): int
  {
    if Redirects(asc, i) then asc.hpredir else -1
  }

  function Noted(as0: seq<Assoc>, a: nat, i: nat, d: int): (as1: seq<Assoc>)
    requires a < |as0| && AssocOk(as0[a]) && i < PINS
    ensures |as1| == |as0| && AssocOk(as1[a])
  {
    as0[a := as0[a].(dacs := as0[a].dacs[i := d])]
  }

  function NextPin(pins: seq<int>, s: nat): (i: nat)
    requires |pins| == PINS && s <= PINS
    ensures s <= i <= PINS && (i < PINS ==> pins[i] != 0)
    ensures forall j :: s <= j < i ==> pins[j] == 0
    decreases PINS - s
  {
    if s == PINS || pins[s] != 0 then s else NextPin(pins, s + 1)
  }

  predicate InRange(as0: seq<Assoc>, a: nat, i: nat)
  {
    a < |as0| && AssocOk(as0[a]) && as0[a].hpredir < PINS && i < PINS
  }

  /** r is the first-choice route of pin i to some DAC. */
  ghost predicate Choice(ws: seq<Widget>, as0: seq<Assoc>, a: nat, i: nat, r: Route)
    requires InRange(as0, a, i)
  {
    var q := QueryOf(as0, a, SharedSeq(as0[a], i), 0);
    IsRoute(ws, q, r, 0) && FirstChoice(ws, q, r, 0) && Source(r) == as0[a].pins[i]
  }

  /** Some choice of DACs, pin by pin, gives every pin from s on a route. */
  ghost predicate Assignable(ws: seq<Widget>, as0: seq<Assoc>, a: nat, s: nat)
    requires a < |as0| && AssocOk(as0[a]) && as0[a].hpredir < PINS && s <= PINS
    decreases PINS - s
  {
    var i := NextPin(as0[a].pins, s);
    i == PINS || exists r :: Choice(ws, as0, a, i, r) && AssignableAfter(ws, as0, a, i, r)
  }

  ghost predicate AssignableAfter(ws: seq<Widget>, as0: seq<Assoc>, a: nat, i: nat, r: Route)
    requires InRange(as0, a, i)
    decreases PINS - i, 0
  {
    Assignable(Mark(ws, r, a, i), Noted(as0, a, i, Target(r)), a, i + 1)
  }

  /** (ws', as') is the lexicographically least assignment of DACs. */
  ghost predicate LeastAssignment(ws: seq<Widget>, as0: seq<Assoc>, a: nat, s: nat, ws': seq<Widget>, as': seq<Assoc>)
    requires a < |as0| && AssocOk(as0[a]) && as0[a].hpredir < PINS && s <= PINS
    decreases PINS - s
  {
    var i := NextPin(as0[a].pins, s);
    if i == PINS then
      ws' == ws && as' == as0
    else
      exists r :: Choice(ws, as0, a, i, r) && LeastBy(ws, as0, a, i, r, ws', as')
  }

  ghost predicate LeastBy(ws: seq<Widget>, as0: seq<Assoc>, a: nat, i: nat, r: Route, ws': seq<Widget>, as': seq<Assoc>)
    requires InRange(as0, a, i)
    decreases PINS - i, 0
  {
    && LeastAssignment(Mark(ws, r, a, i), Noted(as0, a, i, Target(r)), a, i + 1, ws', as')
    && forall r' :: Choice(ws, as0, a, i, r') && Target(r') < Target(r) ==> !AssignableAfter(ws, as0, a, i, r')
  }

  /** What the search finds is an assignment at all. */
  lemma {:induction false} LeastIsAssignable(ws: seq<Widget>, as0: seq<Assoc>, a: nat, s: nat, ws': seq<Widget>,
                                             as': seq<Assoc>)
    requires a < |as0| && AssocOk(as0[a]) && as0[a].hpredir < PINS && s <= PINS
    requires LeastAssignment(ws, as0, a, s, ws', as')
    ensures Assignable(ws, as0, a, s)
    decreases PINS - s
  {
    var i := NextPin(as0[a].pins, s);
    if i < PINS {
      var r :| Choice(ws, as0, a, i, r) && LeastBy(ws, as0, a, i, r, ws', as');
      LeastIsAssignable(Mark(ws, r, a, i), Noted(as0, a, i, Target(r)), a, i + 1, ws', as');
      assert AssignableAfter(ws, as0, a, i, r);
    }
  }

  /** No widget has been bound or given a favourite by a user patch. */
  ghost predicate Unpatched(ws: seq<Widget>)
  {
    AllFresh(ws) && forall n :: 0 <= n < |ws| ==> ws[n].favoritDAC == 0
  }

  /** Raising min only removes the smaller DACs. */
  lemma {:induction false} ReachFromMin(ws: seq<Widget>, q: Query, q0: Query, n: int, d: int, depth: nat)
    requires q0 == q.(min := 0) && 0 <= q.min
    ensures Reach(ws, q, n, d, depth) <==> Reach(ws, q0, n, d, depth) && q.min <= d
    decreases MAX_DEPTH + 1 - depth
  {
    if Admits(ws, q, n, depth) {
      forall i | Usable(ws[n], i)
        ensures Reach(ws, q, ws[n].conns[i], d, depth + 1) <==>
                Reach(ws, q0, ws[n].conns[i], d, depth + 1) && q.min <= d
      {
        ReachFromMin(ws, q, q0, ws[n].conns[i], d, depth + 1);
      }
    }
  }

  lemma {:induction false} RouteFromMin(ws: seq<Widget>, q: Query, q0: Query, r: Route, depth: nat)
    requires q0 == q.(min := 0) && 0 <= q.min
    requires IsRoute(ws, q, r, depth) && FirstChoice(ws, q, r, depth)
    ensures IsRoute(ws, q0, r, depth) && FirstChoice(ws, q0, r, depth)
  {
    match r
    case Dac(_) =>
    case Via(n, i, rest) =>
      RouteFromMin(ws, q, q0, rest, depth + 1);
      RouteTarget(ws, q, rest, depth + 1);
      forall k | 0 <= k < i && Usable(ws[n], k) ensures !Reach(ws, q0, ws[n].conns[k], Target(rest), depth + 1) {
        ReachFromMin(ws, q, q0, ws[n].conns[k], Target(rest), depth + 1);
      }
  }

  /** Pin i's DACs below min have been tried in vain. */
  ghost predicate TriedBelow(ws: seq<Widget>, as0: seq<Assoc>, a: nat, i: nat, min: int)
    requires InRange(as0, a, i)
  {
    forall r :: Choice(ws, as0, a, i, r) && Target(r) < min ==> !AssignableAfter(ws, as0, a, i, r)
  }

  /** What one value of min tells: res is the least DAC of pin i from min on
      (0 for none), and the search beyond it decided the choice of res. */
  ghost predicate Tried(ws: seq<Widget>, as0: seq<Assoc>, a: nat, i: nat, min: nat, res: int, ok: bool,
                        ws': seq<Widget>, as': seq<Assoc>)
    requires InRange(as0, a, i)
  {
    if res == 0 then
      forall r :: Choice(ws, as0, a, i, r) ==> Target(r) < min
    else
      && (forall r :: Choice(ws, as0, a, i, r) ==> Target(r) < min || res <= Target(r))
      && exists r :: Choice(ws, as0, a, i, r) && Target(r) == res &&
           if ok then
             LeastAssignment(Mark(ws, r, a, i), Noted(as0, a, i, res), a, i + 1, ws', as')
           else
             !AssignableAfter(ws, as0, a, i, r)
  }

  /** The outcome of the search is the least assignment, or there is none. */
  ghost predicate Exact(ws: seq<Widget>, as0: seq<Assoc>, a: nat, s: nat, ok: bool, ws': seq<Widget>, as': seq<Assoc>)
    requires a < |as0| && AssocOk(as0[a]) && as0[a].hpredir < PINS && s <= PINS
  {
    if ok then LeastAssignment(ws, as0, a, s, ws', as') else !Assignable(ws, as0, a, s)
  }

  lemma TriedExact(ws: seq<Widget>, as0: seq<Assoc>, a: nat, s: nat, i: nat, min: nat, res: int, ok: bool,
                   ws': seq<Widget>, as': seq<Assoc>)
    requires InRange(as0, a, i) && s <= i && i == NextPin(as0[a].pins, s)
    requires TriedBelow(ws, as0, a, i, min)
    requires Tried(ws, as0, a, i, min, res, ok, ws', as') && (res == 0 ==> !ok)
    ensures ok || res == 0 ==> Exact(ws, as0, a, s, ok, ws', as')
    ensures !ok && res != 0 ==> TriedBelow(ws, as0, a, i, res + 1)
  {
    if res != 0 {
      var r :| Choice(ws, as0, a, i, r) && Target(r) == res &&
               if ok then
                 LeastAssignment(Mark(ws, r, a, i), Noted(as0, a, i, res), a, i + 1, ws', as')
               else
                 !AssignableAfter(ws, as0, a, i, r);
      if ok {
        assert LeastBy(ws, as0, a, i, r, ws', as');
      } else {
        forall r' | Choice(ws, as0, a, i, r') && Target(r') < res + 1 ensures !AssignableAfter(ws, as0, a, i, r') {
          if Target(r') == res {
            FirstChoiceUnique(ws, QueryOf(as0, a, SharedSeq(as0[a], i), 0), r, r', 0);
          }
        }
      }
    }
  }

  /** The DACs of pin i from min on are no smaller than the one probed. */
  lemma ChoicesFrom(ws: seq<Widget>, as0: seq<Assoc>, a: nat, i: nat, min: nat, res: int, r: Route)
    requires InRange(as0, a, i) && Unpatched(ws) && !Live(ws, 0) && Choice(ws, as0, a, i, r)
    requires res == Probe(ws, QueryOf(as0, a, SharedSeq(as0[a], i), min), as0[a].pins[i], 0)
    ensures Target(r) < min || (res != 0 && res <= Target(r))
  {
    var q := QueryOf(as0, a, SharedSeq(as0[a], i), min);
    RouteReaches(ws, q.(min := 0), r, 0);
    ReachFromMin(ws, q, q.(min := 0), as0[a].pins[i], Target(r), 0);
    ProbeWithoutFavourites(ws, q, as0[a].pins[i], 0);
  }

  /** A probe found res from min on, and r was marked. */
  lemma TracedTried(ws: seq<Widget>, as0: seq<Assoc>, a: nat, i: nat, min: nat, res: int, r: Route, ok: bool,
                    ws': seq<Widget>, as': seq<Assoc>)
    requires InRange(as0, a, i) && Unpatched(ws) && !Live(ws, 0)
    requires var q := QueryOf(as0, a, SharedSeq(as0[a], i), min);
             && res == Probe(ws, q, as0[a].pins[i], 0)
             && (res != 0 ==> IsRoute(ws, q, r, 0) && FirstChoice(ws, q, r, 0)
                              && Source(r) == as0[a].pins[i] && Target(r) == res)
    requires res != 0 ==> Exact(Mark(ws, r, a, i), Noted(as0, a, i, res), a, i + 1, ok, ws', as')
    ensures Tried(ws, as0, a, i, min, res, ok, ws', as')
  {
    forall r' | Choice(ws, as0, a, i, r') ensures Target(r') < min || (res != 0 && res <= Target(r')) {
      ChoicesFrom(ws, as0, a, i, min, res, r');
    }
    if res != 0 {
      var q := QueryOf(as0, a, SharedSeq(as0[a], i), min);
      RouteFromMin(ws, q, q.(min := 0), r, 0);
      TriedBy(ws, as0, a, i, min, res, r, ok, ws', as');
    }
  }

  lemma TriedBy(ws: seq<Widget>, as0: seq<Assoc>, a: nat, i: nat, min: nat, res: int, r: Route, ok: bool,
                ws': seq<Widget>, as': seq<Assoc>)
    requires InRange(as0, a, i) && res != 0 && Choice(ws, as0, a, i, r) && Target(r) == res
    requires forall r' :: Choice(ws, as0, a, i, r') ==> Target(r') < min || res <= Target(r')
    requires Exact(Mark(ws, r, a, i), Noted(as0, a, i, res), a, i + 1, ok, ws', as')
    ensures Tried(ws, as0, a, i, min, res, ok, ws', as')
  {
  }

  lemma MarkUnpatched(ws: seq<Widget>, r: Route, a: nat, i: nat)
    requires Unpatched(ws)
    ensures Unpatched(Mark(ws, r, a, i))
  {
    var ms := Mark(ws, r, a, i);
    forall n | Live(ms, n) && ms[n].bindAssoc < 0 ensures ms[n] == Cleared(ms[n]) {
      assert Live(ws, n);
    }
  }

  /** The associations have changed in the DACs of association a from s on. */
  predicate OnlyDacs(as0: seq<Assoc>, as1: seq<Assoc>, a: nat, s: int)
  {
    && a < |as0| && |as1| == |as0|
    && as1 == as0[a := as1[a]]
    && DacsFrom(as0[a], as1[a], s)
  }

  /** The search may start at pin s of association a. */
  ghost predicate Ready(ws: seq<Widget>, as0: seq<Assoc>, a: nat, s: nat)
  {
    && a < |as0| && AssocOk(as0[a]) && -1 <= as0[a].hpredir < PINS && s <= PINS
    && !Live(ws, 0)
    && Sane(ws, as0[a], a, s)
    && forall j :: s <= j < PINS ==> as0[a].dacs[j] == 0
  }

  /** What the search from pin s of association a leaves.  On success every
      present pin from s on is routed, by selected hops if every cycle of the
      enabled graph runs through a pin complex, nothing of another association
      has been touched, and no
      widget is shared but by a redirected jack.  On failure everything is
      undone.  Without user patches the assignment found is the least one,
      and failure means there is none. */
  ghost predicate Searched(ws: seq<Widget>, as0: seq<Assoc>, a: nat, s: nat, ok: bool, ws': seq<Widget>,
                           as': seq<Assoc>)
    requires a < |as0| && AssocOk(as0[a]) && as0[a].hpredir < PINS && s <= PINS
  {
    && OnlyDacs(as0, as', a, s) && AssocOk(as'[a])
    && (if ok then
          && Grown(ws, ws', a)
          && Sane(ws', as'[a], a, PINS)
          && AllRouted(ws', as'[a], a, s, Acyclic(ws))
        else
          Undone(ws, ws') && as' == as0)
    && (Unpatched(ws) ==> Exact(ws, as0, a, s, ok, ws', as'))
  }

  /** Pin i of association a has been probed from min on and traced by r. */
  ghost predicate PinTraced(ws: seq<Widget>, as0: seq<Assoc>, a: nat, i: nat, min: nat, r: Route, ms: seq<Widget>,
                            as1: seq<Assoc>)
    requires InRange(as0, a, i)
  {
    var q := QueryOf(as0, a, SharedSeq(as0[a], i), min);
    && IsRoute(ws, q, r, 0) && FirstChoice(ws, q, r, 0) && Source(r) == as0[a].pins[i]
    && Target(r) == Probe(ws, q, as0[a].pins[i], 0)
    && ms == Mark(ws, r, a, i)
    && as1 == Noted(as0, a, i, Target(r))
  }

  lemma TracedReady(ws: seq<Widget>, as0: seq<Assoc>, a: nat, i: nat, min: nat, r: Route, ms: seq<Widget>,
                    as1: seq<Assoc>)
    requires Ready(ws, as0, a, i) && i < PINS && PinTraced(ws, as0, a, i, min, r, ms, as1)
    ensures Ready(ms, as1, a, i + 1)
  {
    MarkSane(ws, as0[a], QueryOf(as0, a, SharedSeq(as0[a], i), min), r, i);
    SaneDacs(ms, as0[a], as1[a], a, i + 1);
  }

  lemma TracedDacs(ws: seq<Widget>, as0: seq<Assoc>, a: nat, i: nat, min: nat, r: Route, ms: seq<Widget>,
                   as1: seq<Assoc>, as2: seq<Assoc>)
    requires Ready(ws, as0, a, i) && i < PINS && PinTraced(ws, as0, a, i, min, r, ms, as1)
    requires OnlyDacs(as1, as2, a, i + 1) && AssocOk(as2[a])
    ensures OnlyDacs(as0, as2, a, i) && as2[a].dacs[i] == Target(r)
    ensures Redirects(as2[a], i) ==> as2[a].hpredir < i && as2[a].dacs[i] == as2[a].dacs[as2[a].hpredir]
  {
    RouteTarget(ws, QueryOf(as0, a, SharedSeq(as0[a], i), min), r, 0);
  }

  lemma TracedGrown(ws: seq<Widget>, as0: seq<Assoc>, a: nat, i: nat, min: nat, r: Route, ms: seq<Widget>,
                    as1: seq<Assoc>, ws2: seq<Widget>)
    requires Ready(ws, as0, a, i) && i < PINS && PinTraced(ws, as0, a, i, min, r, ms, as1) && Grown(ms, ws2, a)
    ensures (Acyclic(ws) <==> Acyclic(ms)) && Grown(ws, ws2, a) && LiveRoute(ws2, r, a, i, Acyclic(ws))
  {
    var q := QueryOf(as0, a, SharedSeq(as0[a], i), min);
    MarkSane(ws, as0[a], q, r, i);
    SameStructureAcyclic(ws, ms);
    GrownTwice(ws, ms, ws2, a);
    MarkedRoute(ws, q, r, i);
    if Acyclic(ws) {
      AcyclicExitsAgree(ws, q, r);
    }
    GrownRoute(ms, ws2, a, r, a, i, Acyclic(ws));
  }

  /** Pin i has been traced and the search beyond it succeeded. */
  lemma TracedOn(ws: seq<Widget>, as0: seq<Assoc>, a: nat, i: nat, min: nat, r: Route, ms: seq<Widget>, as1: seq<Assoc>,
                 ws2: seq<Widget>, as2: seq<Assoc>)
    requires Ready(ws, as0, a, i) && i < PINS && PinTraced(ws, as0, a, i, min, r, ms, as1)
    requires OnlyDacs(as1, as2, a, i + 1) && AssocOk(as2[a])
    requires Grown(ms, ws2, a) && AllRouted(ws2, as2[a], a, i + 1, Acyclic(ms))
    ensures OnlyDacs(as0, as2, a, i)
    ensures Grown(ws, ws2, a) && AllRouted(ws2, as2[a], a, i, Acyclic(ws))
  {
    TracedDacs(ws, as0, a, i, min, r, ms, as1, as2);
    TracedGrown(ws, as0, a, i, min, r, ms, as1, ws2);
    assert PinRouted(ws2, as2[a], a, i, Acyclic(ws));
  }

  /** Pin i has been traced, the search beyond it failed, the pin is undone. */
  lemma TracedBack(ws: seq<Widget>, as0: seq<Assoc>, a: nat, i: nat, min: nat, r: Route, ms: seq<Widget>,
                   as1: seq<Assoc>, ws2: seq<Widget>)
    requires Ready(ws, as0, a, i) && i < PINS && PinTraced(ws, as0, a, i, min, r, ms, as1)
    requires Undone(ms, ws2)
    ensures Undone(ws, Undo(ws2, a, i))
    ensures as1[a := as1[a].(dacs := as1[a].dacs[i := 0])] == as0
  {
    UndoMark(ws, ws2, as0[a], QueryOf(as0, a, SharedSeq(as0[a], i), min), r, i);
    assert as1[a].dacs[i := 0] == as0[a].dacs;
  }

  /** What one value of min leaves: the outcome of a search from pin i, but
      for the larger DACs still to be tried. */
  ghost predicate TriedPin(ws: seq<Widget>, as0: seq<Assoc>, a: nat, i: nat, min: nat, res: int, ok: bool,
                           ws': seq<Widget>, as': seq<Assoc>)
    requires InRange(as0, a, i)
  {
    && OnlyDacs(as0, as', a, i) && AssocOk(as'[a])
    && (res == 0 ==> !ok)
    && (if ok then
          && Grown(ws, ws', a)
          && Sane(ws', as'[a], a, PINS)
          && AllRouted(ws', as'[a], a, i, Acyclic(ws))
        else
          Undone(ws, ws') && as' == as0)
    && (Unpatched(ws) ==> Tried(ws, as0, a, i, min, res, ok, ws', as'))
  }

  lemma TracedPin(ws: seq<Widget>, as0: seq<Assoc>, a: nat, i: nat, min: nat, r: Route, ms: seq<Widget>,
                  as1: seq<Assoc>, ok: bool, ws2: seq<Widget>, as2: seq<Assoc>)
    requires Ready(ws, as0, a, i) && i < PINS && PinTraced(ws, as0, a, i, min, r, ms, as1)
    requires as1[a].hpredir < PINS && Searched(ms, as1, a, i + 1, ok, ws2, as2)
    ensures if ok then TriedPin(ws, as0, a, i, min, Target(r), true, ws2, as2)
            else TriedPin(ws, as0, a, i, min, Target(r), false, Undo(ws2, a, i),
                          as2[a := as2[a].(dacs := as2[a].dacs[i := 0])])
  {
    RouteTarget(ws, QueryOf(as0, a, SharedSeq(as0[a], i), min), r, 0);
    if ok {
      TracedOn(ws, as0, a, i, min, r, ms, as1, ws2, as2);
    } else {
      TracedBack(ws, as0, a, i, min, r, ms, as1, ws2);
    }
    if Unpatched(ws) {
      MarkUnpatched(ws, r, a, i);
      var as' := if ok then as2 else as0;
      TracedTried(ws, as0, a, i, min, Target(r), r, ok, if ok then ws2 else Undo(ws2, a, i), as');
    }
  }

  lemma UntracedPin(ws: seq<Widget>, as0: seq<Assoc>, a: nat, i: nat, min: nat)
    requires Ready(ws, as0, a, i) && i < PINS
    requires Probe(ws, QueryOf(as0, a, SharedSeq(as0[a], i), min), as0[a].pins[i], 0) == 0
    ensures TriedPin(ws, as0, a, i, min, 0, false, ws, as0)
  {
    if Unpatched(ws) {
      TracedTried(ws, as0, a, i, min, 0, Dac(0), false, ws, as0);
    }
  }

  lemma GrownTwice(ws: seq<Widget>, ws1: seq<Widget>, ws2: seq<Widget>, a: int)
    requires a >= 0 && Grown(ws, ws1, a) && Grown(ws1, ws2, a)
    ensures Grown(ws, ws2, a)
  {
  }

  /** The state of the search for pin i, the next present one from s on,
      before it tries the DACs from min on. */
  ghost predicate Searching(ws: seq<Widget>, as0: seq<Assoc>, a: nat, s: nat, i: nat, min: nat, ws1: seq<Widget>)
  {
    && Ready(ws, as0, a, s) && i < PINS && i == NextPin(as0[a].pins, s)
    && Undone(ws, ws1)
    && (Unpatched(ws) ==> TriedBelow(ws, as0, a, i, min))
  }

  lemma SearchStarts(ws: seq<Widget>, as0: seq<Assoc>, a: nat, s: nat)
    requires Ready(ws, as0, a, s)
    ensures var i := NextPin(as0[a].pins, s);
            if i == PINS then Searched(ws, as0, a, s, true, ws, as0) else Searching(ws, as0, a, s, i, 0, ws)
  {
    var i := NextPin(as0[a].pins, s);
    SaneLater(ws, as0[a], a, s, PINS);
    if i < PINS {
      forall r | Choice(ws, as0, a, i, r) ensures Target(r) >= 0 {
        RouteTarget(ws, QueryOf(as0, a, SharedSeq(as0[a], i), 0), r, 0);
      }
    }
  }

  lemma SearchReady(ws: seq<Widget>, as0: seq<Assoc>, a: nat, s: nat, i: nat, min: nat, ws1: seq<Widget>)
    requires Searching(ws, as0, a, s, i, min, ws1)
    ensures Ready(ws1, as0, a, i)
  {
    SaneLater(ws, as0[a], a, s, i);
    UndoneSane(ws, ws1, as0[a], a, i);
  }

  lemma SearchNext(ws: seq<Widget>, as0: seq<Assoc>, a: nat, s: nat, i: nat, min: nat, ws1: seq<Widget>, res: int,
                   ok: bool, ws2: seq<Widget>, as2: seq<Assoc>)
    requires Searching(ws, as0, a, s, i, min, ws1)
    requires TriedPin(ws1, as0, a, i, min, res, ok, ws2, as2)
    requires res >= 0
    ensures if ok || res == 0 then Searched(ws, as0, a, s, ok, ws2, as2)
            else Searching(ws, as0, a, s, i, res + 1, ws2) && as2 == as0
  {
    if Unpatched(ws) {
      UndoneFresh(ws, ws1);
      TriedExact(ws, as0, a, s, i, min, res, ok, ws2, as2);
    }
    if ok {
      SameStructureAcyclic(ws, ws1);
      GrownTwice(ws, ws1, ws2, a);
    }
  }

  /** One round of the search for pin i: probe for the least DAC from `min`
      on, then trace again to mark the path and note the DAC. */
  method TracePin(fg: FunctionGroup, assocNum: nat, i: nat, hpredir: int, min: nat) returns (res: int, ghost r: Route)
    requires fg.ValidWidgets() && fg.ValidAssocs() && InRange(fg.assocs[..], assocNum, i)
    requires hpredir == SharedSeq(fg.assocs[assocNum], i)
    modifies fg.widgets, fg.assocs
    ensures fg.ValidWidgets() && fg.ValidAssocs()
    ensures InRange(old(fg.assocs[..]), assocNum, i)
    ensures res == Probe(old(fg.widgets[..]), QueryOf(old(fg.assocs[..]), assocNum, hpredir, min),
                         old(fg.assocs[assocNum].pins[i]), 0)
    ensures res == 0 ==> fg.widgets[..] == old(fg.widgets[..]) && fg.assocs[..] == old(fg.assocs[..])
    ensures res != 0 ==>
              && min <= res < fg.widgets.Length
              && PinTraced(old(fg.widgets[..]), old(fg.assocs[..]), assocNum, i, min, r,
                           fg.widgets[..], fg.assocs[..])
  {
    ghost var ws := fg.widgets[..];
    ghost var q := QueryOf(fg.assocs[..], assocNum, hpredir, min);
    ghost var r0;
    res, r0 := AudioTraceDac(fg, assocNum, i, fg.assocs[assocNum].pins[i], hpredir, min, 0, 0);
    r := r0;
    if res == 0 {
      return;
    }
    var m;
    m, r := AudioTraceDac(fg, assocNum, i, fg.assocs[assocNum].pins[i], hpredir, min, res, 0);
    ProbeThenMark(ws, q, i, fg.assocs[assocNum].pins[i], 0, res, r0, ws, m, r, fg.widgets[..]);
    RouteTarget(ws, q, r, 0);
    fg.assocs[assocNum] := fg.assocs[assocNum].(dacs := fg.assocs[assocNum].dacs[i := res]);
  }

  /** One value of `min` in the search for pin i: trace the pin, search on,
      and undo the pin when that fails.  res = 0 says the pin has no DAC. */
  method TryPin(fg: FunctionGroup, assocNum: nat, i: nat, hpredir: int, min: nat) returns (res: int, ok: bool)
    requires fg.ValidWidgets() && fg.ValidAssocs()
    requires Ready(fg.widgets[..], fg.assocs[..], assocNum, i) && i < PINS
    requires hpredir == SharedSeq(fg.assocs[assocNum], i)
    modifies fg.widgets, fg.assocs
    ensures fg.ValidWidgets() && fg.ValidAssocs()
    ensures InRange(old(fg.assocs[..]), assocNum, i)
    ensures TriedPin(old(fg.widgets[..]), old(fg.assocs[..]), assocNum, i, min, res, ok, fg.widgets[..], fg.assocs[..])
    ensures res == 0 || min <= res < fg.widgets.Length
    decreases PINS - i, 0
  {
    ghost var ws, as0 := fg.widgets[..], fg.assocs[..];
    ghost var r;
    res, r := TracePin(fg, assocNum, i, hpredir, min);
    ok := false;
    if res == 0 {
      UntracedPin(ws, as0, assocNum, i, min);
    } else {
      ghost var ms, as1 := fg.widgets[..], fg.assocs[..];
      TracedReady(ws, as0, assocNum, i, min, r, ms, as1);
      ok := AudioTraceAssociationOut(fg, assocNum, i + 1);
      TracedPin(ws, as0, assocNum, i, min, r, ms, as1, ok, fg.widgets[..], fg.assocs[..]);
      if !ok {
        AudioUndoTrace(fg, assocNum, i);
        fg.assocs[assocNum] := fg.assocs[assocNum].(dacs := fg.assocs[assocNum].dacs[i := 0]);
      }
    }
  }

  /** audioTraceAssociationOut: gives every pin from `s` on a DAC, trying the
      next larger DAC whenever a later pin fails. */
  method AudioTraceAssociationOut(fg: FunctionGroup, assocNum: nat, s: nat) returns (ok: bool)
    requires fg.ValidWidgets() && fg.ValidAssocs()
    requires Ready(fg.widgets[..], fg.assocs[..], assocNum, s)
    modifies fg.widgets, fg.assocs
    ensures fg.ValidWidgets() && fg.ValidAssocs()
    ensures Searched(old(fg.widgets[..]), old(fg.assocs[..]), assocNum, s, ok, fg.widgets[..], fg.assocs[..])
    decreases PINS - s, 1
  {
    ghost var ws, as0 := fg.widgets[..], fg.assocs[..];
    var i := s;
    while i < PINS && fg.assocs[assocNum].pins[i] == 0
      invariant s <= i <= PINS
      invariant NextPin(as0[assocNum].pins, s) == NextPin(as0[assocNum].pins, i)
    {
      i := i + 1;
    }
    SearchStarts(ws, as0, assocNum, s);
    if i == PINS {
      return true;
    }
    var hpredir := if i == fg.assocs[assocNum].jackPin && !fg.assocs[assocNum].fakeredir
                   then fg.assocs[assocNum].hpredir else -1;
    var min := 0;
    while true
      invariant 0 <= min <= fg.widgets.Length
      invariant fg.ValidWidgets() && fg.ValidAssocs()
      invariant Searching(ws, as0, assocNum, s, i, min, fg.widgets[..]) && fg.assocs[..] == as0
      decreases fg.widgets.Length - min
    {
      ghost var ws1 := fg.widgets[..];
      SearchReady(ws, as0, assocNum, s, i, min, ws1);
      var res;
      res, ok := TryPin(fg, assocNum, i, hpredir, min);
      SearchNext(ws, as0, assocNum, s, i, min, ws1, res, ok, fg.widgets[..], fg.assocs[..]);
      if ok || res == 0 {
        return;
      }
      min := res + 1;
    }
  }
}
