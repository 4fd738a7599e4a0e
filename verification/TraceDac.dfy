/** Tracing one output pin to a DAC: audioTraceDac in its probing form
    (only = 0) and its marking form (only = the DAC), and audioUndoTrace. */
module OutputTrace {
  import opened HdaGraph

  /** What a trace asks for: the association it runs for, the sequence whose
      DAC must be shared (-1 for none) with that DAC, and the least node id. */
  datatype Query = Query(assoc: int, dup: int, dupDac: int, min: int)

  /** A walk from a widget to a DAC, each hop by a connection number. */
  datatype Route = Dac(dac: int) | Via(nid: int, conn: int, rest: Route)

  function Source(r: Route): int
  {
    match r
    case Dac(n) => n
    case Via(n, _, _) => n
  }

  function Target(r: Route): int
  {
    match r
    case Dac(n) => n
    case Via(_, _, rest) => Target(rest)
  }

  function Nodes(r: Route): set<int>
  {
    match r
    case Dac(n) => {n}
    case Via(n, _, rest) => {n} + Nodes(rest)
  }

  // ----- Which walks a trace may take -----

  /** The widget is not taken by another association, nor by another pin of
      this one, unless it carries the pin whose DAC is to be shared. */
  predicate Free(w: Widget, q: Query)
  {
    && (w.bindAssoc >= 0 ==> w.bindAssoc == q.assoc)
    && (w.bindSeqMask != {} ==> q.dup >= 0 && q.dup in w.bindSeqMask)
  }

  predicate Admits(ws: seq<Widget>, q: Query, n: int, depth: nat)
  {
    depth <= MAX_DEPTH && Live(ws, n) && Free(ws[n], q)
  }

  predicate EndsAt(w: Widget, q: Query, n: int)
  {
    w.kind == AudioOutput && n >= q.min && (q.dup < 0 || n == q.dupDac)
  }

  predicate Passes(w: Widget, depth: nat)
  {
    w.kind != AudioOutput && w.kind != AudioInput && (w.kind == PinComplex ==> depth == 0)
  }

  predicate Usable(w: Widget, i: int)
  {
    Enabled(w, i) && (w.selconn == -1 || w.selconn == i)
  }

  /** r is a walk a trace of q may take from depth `depth` on. */
  predicate IsRoute(ws: seq<Widget>, q: Query, r: Route, depth: nat)
  {
    Admits(ws, q, Source(r), depth) &&
    match r
    case Dac(n) => EndsAt(ws[n], q, n)
    case Via(n, i, rest) =>
      && Passes(ws[n], depth)
      && Usable(ws[n], i)
      && ws[n].conns[i] == Source(rest)
      && IsRoute(ws, q, rest, depth + 1)
  }

  /** DAC d can be reached from widget n. */
  ghost predicate Reach(ws: seq<Widget>, q: Query, n: int, d: int, depth: nat)
    decreases MAX_DEPTH + 1 - depth
  {
    && Admits(ws, q, n, depth)
    && (|| (EndsAt(ws[n], q, n) && n == d)
        || (&& Passes(ws[n], depth)
            && exists i :: Usable(ws[n], i) && Reach(ws, q, ws[n].conns[i], d, depth + 1)))
  }

  /** r takes, at every widget, the first connection that leads to its DAC. */
  ghost predicate FirstChoice(ws: seq<Widget>, q: Query, r: Route, depth: nat)
  {
    match r
    case Dac(_) => true
    case Via(n, i, rest) =>
      && 0 <= n < |ws|
      && (forall k :: 0 <= k < i && Usable(ws[n], k) ==> !Reach(ws, q, ws[n].conns[k], Target(rest), depth + 1))
      && FirstChoice(ws, q, rest, depth + 1)
  }

  /** The walk a marking trace takes is determined by its ends. */
  lemma {:induction false} FirstChoiceUnique(ws: seq<Widget>, q: Query, r: Route, r': Route, depth: nat)
    requires IsRoute(ws, q, r, depth) && FirstChoice(ws, q, r, depth)
    requires IsRoute(ws, q, r', depth) && FirstChoice(ws, q, r', depth)
    requires Source(r) == Source(r') && Target(r) == Target(r')
    ensures r == r'
  {
    if r.Via? && r'.Via? {
      RouteReaches(ws, q, r.rest, depth + 1);
      RouteReaches(ws, q, r'.rest, depth + 1);
      FirstChoiceUnique(ws, q, r.rest, r'.rest, depth + 1);
    }
  }

  lemma {:induction false} RouteReaches(ws: seq<Widget>, q: Query, r: Route, depth: nat)
    requires IsRoute(ws, q, r, depth)
    ensures Reach(ws, q, Source(r), Target(r), depth)
  {
    match r
    case Dac(n) =>
    case Via(n, i, rest) => RouteReaches(ws, q, rest, depth + 1);
  }

  lemma {:induction false} ReachHasRoute(ws: seq<Widget>, q: Query, n: int, d: int, depth: nat) returns (r: Route)
    requires Reach(ws, q, n, d, depth)
    ensures IsRoute(ws, q, r, depth) && Source(r) == n && Target(r) == d
    decreases MAX_DEPTH + 1 - depth
  {
    if EndsAt(ws[n], q, n) && n == d {
      r := Dac(n);
    } else {
      var i :| Usable(ws[n], i) && Reach(ws, q, ws[n].conns[i], d, depth + 1);
      var rest := ReachHasRoute(ws, q, ws[n].conns[i], d, depth + 1);
      r := Via(n, i, rest);
    }
  }

  lemma {:induction false} ReachedDac(ws: seq<Widget>, q: Query, n: int, d: int, depth: nat)
    requires Reach(ws, q, n, d, depth)
    ensures Live(ws, d) && EndsAt(ws[d], q, d)
    decreases MAX_DEPTH + 1 - depth
  {
    if !(EndsAt(ws[n], q, n) && n == d) {
      var i :| Usable(ws[n], i) && Reach(ws, q, ws[n].conns[i], d, depth + 1);
      ReachedDac(ws, q, ws[n].conns[i], d, depth + 1);
    }
  }

  // ----- What a probe answers -----

  lemma {:induction false} LeastExists(s: set<int>, x: int)
    requires x in s
    ensures exists m :: m in s && forall y :: y in s ==> m <= y
    decreases s
  {
    if y :| y in s && y < x {
      LeastExists(s - {x}, y);
      var m :| m in s - {x} && forall z :: z in s - {x} ==> m <= z;
      assert forall z :: z in s ==> z == x || z in s - {x};
      assert m in s;
    }
  }

  ghost function Least(s: set<int>): (m: int)
    requires exists x :: x in s
    ensures m in s && forall x :: x in s ==> m <= x
  {
    var x :| x in s;
    LeastExists(s, x);
    var m :| m in s && forall x :: x in s ==> m <= x;
    m
  }

  /** The favourite of the widget when it is among the answers, else the least. */
  ghost function Choose(answers: set<int>, favourite: int): int
  {
    if favourite in answers then favourite
    else if exists x :: x in answers then Least(answers)
    else 0
  }

  /** The answer of a probe: 0 when no DAC is reachable. */
  ghost function Probe(ws: seq<Widget>, q: Query, n: int, depth: nat): int
    decreases MAX_DEPTH + 1 - depth, |ws| + 1
  {
    if !Admits(ws, q, n, depth) then 0
    else if EndsAt(ws[n], q, n) then n
    else if !Passes(ws[n], depth) then 0
    else Choose(Answers(ws, q, n, depth, |ws[n].conns|), ws[n].favoritDAC)
  }

  /** The answers of the first k connections of n. */
  ghost function Answers(ws: seq<Widget>, q: Query, n: int, depth: nat, k: nat): set<int>
    requires Admits(ws, q, n, depth)
    decreases MAX_DEPTH + 1 - depth, 0
  {
    set i | 0 <= i < k && Usable(ws[n], i) && Probe(ws, q, ws[n].conns[i], depth + 1) != 0
      :: Probe(ws, q, ws[n].conns[i], depth + 1)
  }

  lemma {:induction false} AnswersStep(ws: seq<Widget>, q: Query, n: int, depth: nat, i: nat)
    requires Admits(ws, q, n, depth)
    ensures Answers(ws, q, n, depth, i + 1) ==
            Answers(ws, q, n, depth, i) +
            (if Usable(ws[n], i) && Probe(ws, q, ws[n].conns[i], depth + 1) != 0
             then {Probe(ws, q, ws[n].conns[i], depth + 1)} else {})
  {
  }

  lemma AnswersGrow(ws: seq<Widget>, q: Query, n: int, depth: nat, i: nat, k: nat)
    requires Admits(ws, q, n, depth) && i <= k
    ensures Answers(ws, q, n, depth, i) <= Answers(ws, q, n, depth, k)
  {
  }

  /** When a DAC is to be shared, it is the only possible answer. */
  lemma AnswersShared(ws: seq<Widget>, q: Query, n: int, depth: nat, k: nat)
    requires Admits(ws, q, n, depth) && q.dup >= 0
    ensures forall x :: x in Answers(ws, q, n, depth, k) ==> x == q.dupDac
  {
    forall x | x in Answers(ws, q, n, depth, k) ensures x == q.dupDac {
      var i :| 0 <= i < k && Usable(ws[n], i) && Probe(ws, q, ws[n].conns[i], depth + 1) == x;
      ProbeSound(ws, q, ws[n].conns[i], depth + 1);
      ReachedDac(ws, q, ws[n].conns[i], x, depth + 1);
    }
  }

  /** A nonzero answer is a reachable DAC. */
  lemma {:induction false} ProbeSound(ws: seq<Widget>, q: Query, n: int, depth: nat)
    requires Probe(ws, q, n, depth) != 0
    ensures Reach(ws, q, n, Probe(ws, q, n, depth), depth)
    decreases MAX_DEPTH + 1 - depth
  {
    if !EndsAt(ws[n], q, n) {
      var m := Probe(ws, q, n, depth);
      assert m in Answers(ws, q, n, depth, |ws[n].conns|);
      var i :| 0 <= i < |ws[n].conns| && Usable(ws[n], i) && Probe(ws, q, ws[n].conns[i], depth + 1) == m;
      ProbeSound(ws, q, ws[n].conns[i], depth + 1);
    }
  }

  /** The answer is nonzero when some DAC is reachable. */
  lemma {:induction false} ProbeComplete(ws: seq<Widget>, q: Query, n: int, d: int, depth: nat)
    requires Reach(ws, q, n, d, depth)
    requires !Live(ws, 0)
    ensures Probe(ws, q, n, depth) != 0
    decreases MAX_DEPTH + 1 - depth
  {
    if !EndsAt(ws[n], q, n) {
      var i :| Usable(ws[n], i) && Reach(ws, q, ws[n].conns[i], d, depth + 1);
      ProbeComplete(ws, q, ws[n].conns[i], d, depth + 1);
      assert Probe(ws, q, ws[n].conns[i], depth + 1) in Answers(ws, q, n, depth, |ws[n].conns|);
      assert forall x :: x in Answers(ws, q, n, depth, |ws[n].conns|) ==> x != 0;
    }
  }

  // ----- Marking a walk and undoing it -----

  /** Widgets whose connection is chosen by selconn. */
  predicate Selecting(w: Widget)
  {
    && w.kind != AudioOutput && w.kind != AudioInput
    && ((|w.conns| > 1 && w.kind != Mixer) || w.kind == Selector)
  }

  /** The connection by which r first leaves n. */
  function LeavesBy(r: Route, n: int): int
  {
    match r
    case Dac(_) => -1
    case Via(m, i, rest) => if m == n then i else LeavesBy(rest, n)
  }

  function MarkWidget(w: Widget, assocNum: int, s: int, exit: int): Widget
  {
    w.(selconn := if Selecting(w) then exit else w.selconn,
       traceDir := w.traceDir + {Out},
       bindAssoc := assocNum,
       bindSeqMask := w.bindSeqMask + {s})
  }

  /** The widgets after a walk has been marked for pin s of an association. */
  function Mark(ws: seq<Widget>, r: Route, assocNum: int, s: int): (ms: seq<Widget>)
    ensures |ms| == |ws|
  {
    seq(|ws|, n requires 0 <= n < |ws| =>
      if n in Nodes(r) then MarkWidget(ws[n], assocNum, s, LeavesBy(r, n)) else ws[n])
  }

  lemma {:induction false} RouteNodes(ws: seq<Widget>, q: Query, r: Route, depth: nat)
    requires IsRoute(ws, q, r, depth)
    ensures forall n :: n in Nodes(r) ==> Live(ws, n) && Free(ws[n], q) && ws[n].kind != AudioInput
    ensures forall n :: n in Nodes(r) && LeavesBy(r, n) == -1 ==> Live(ws, n) && ws[n].kind == AudioOutput
    ensures forall n :: n in Nodes(r) && LeavesBy(r, n) != -1 ==>
              Live(ws, n) && ws[n].kind != AudioOutput && Usable(ws[n], LeavesBy(r, n))
  {
    match r
    case Dac(_) =>
    case Via(_, _, rest) => RouteNodes(ws, q, rest, depth + 1);
  }

  /** Prefixing a hop to a marked walk: the driver marks on the way back. */
  lemma MarkVia(ws: seq<Widget>, q: Query, n: int, i: int, rest: Route, depth: nat, s: int)
    requires Admits(ws, q, n, depth) && Passes(ws[n], depth) && Usable(ws[n], i)
    requires ws[n].conns[i] == Source(rest) && IsRoute(ws, q, rest, depth + 1)
    ensures IsRoute(ws, q, Via(n, i, rest), depth)
    ensures Reach(ws, q, n, Target(rest), depth)
    ensures Mark(ws, Via(n, i, rest), q.assoc, s) ==
            Mark(ws, rest, q.assoc, s)[n := MarkWidget(Mark(ws, rest, q.assoc, s)[n], q.assoc, s, i)]
  {
    RouteReaches(ws, q, rest, depth + 1);
    RouteNodes(ws, q, rest, depth + 1);
  }

  function QueryOf(assocs: seq<Assoc>, a: nat, dup: int, min: int): Query
    requires a < |assocs| && AssocOk(assocs[a])
    requires dup < PINS
  {
    Query(a, dup, if dup >= 0 then assocs[a].dacs[dup] else 0, min)
  }

  /** One more answer: ret, 0 for none. */
  lemma ChooseStep(before: set<int>, after: set<int>, all: set<int>, favourite: int, m: int, ret: int)
    requires favourite !in before && m == Choose(before, favourite) && 0 !in before
    requires after == before + (if ret != 0 then {ret} else {}) && after <= all
    ensures ret != 0 && (ret == favourite || forall x :: x in all ==> x == ret) ==> Choose(all, favourite) == ret
    ensures ret == 0 || ret != favourite ==>
              && favourite !in after
              && Choose(after, favourite) == if ret != 0 && (m == 0 || ret < m) then ret else m
  {
  }

  /** One more connection of the probing loop. */
  lemma ProbeStep(ws: seq<Widget>, q: Query, n: int, depth: nat, i: nat, m: int, ret: int)
    requires Admits(ws, q, n, depth) && i < |ws[n].conns|
    requires m == Choose(Answers(ws, q, n, depth, i), ws[n].favoritDAC)
    requires ws[n].favoritDAC !in Answers(ws, q, n, depth, i)
    requires q.dup >= 0 ==> m == 0
    requires ret == if Usable(ws[n], i) then Probe(ws, q, ws[n].conns[i], depth + 1) else 0
    ensures var all := Choose(Answers(ws, q, n, depth, |ws[n].conns|), ws[n].favoritDAC);
            && (ret != 0 && ret == ws[n].favoritDAC ==> all == ret)
            && (ret != 0 && q.dup >= 0 ==> all == ret)
            && (ret == 0 || ret != ws[n].favoritDAC ==>
                  && ws[n].favoritDAC !in Answers(ws, q, n, depth, i + 1)
                  && Choose(Answers(ws, q, n, depth, i + 1), ws[n].favoritDAC) ==
                     if ret != 0 && (m == 0 || ret < m) then ret else m)
  {
    var before, after := Answers(ws, q, n, depth, i), Answers(ws, q, n, depth, i + 1);
    var all := Answers(ws, q, n, depth, |ws[n].conns|);
    AnswersStep(ws, q, n, depth, i);
    AnswersGrow(ws, q, n, depth, i + 1, |ws[n].conns|);
    if q.dup >= 0 {
      AnswersShared(ws, q, n, depth, |ws[n].conns|);
    }
    ChooseStep(before, after, all, ws[n].favoritDAC, m, ret);
  }

  /** What audioTraceDac promises of its answer m and the new widgets ms. */
  ghost predicate Traced(ws: seq<Widget>, q: Query, s: int, nid: int, only: int, depth: nat, m: int, route: Route,
                         ms: seq<Widget>)
  {
    if only == 0 then
      m == Probe(ws, q, nid, depth) && ms == ws
    else if Reach(ws, q, nid, only, depth) then
      && m == only
      && IsRoute(ws, q, route, depth) && Source(route) == nid && Target(route) == only
      && FirstChoice(ws, q, route, depth)
      && ms == Mark(ws, route, q.assoc, s)
    else
      m == 0 && ms == ws
  }

  lemma TracedNothing(ws: seq<Widget>, q: Query, s: int, nid: int, only: int, depth: nat, route: Route)
    requires !Admits(ws, q, nid, depth) || !EndsAt(ws[nid], q, nid)
    requires !Admits(ws, q, nid, depth) || !Passes(ws[nid], depth) ||
             (only != 0 && forall k :: Usable(ws[nid], k) ==> !Reach(ws, q, ws[nid].conns[k], only, depth + 1))
    ensures Traced(ws, q, s, nid, only, depth, 0, route, ws)
  {
  }

  lemma TracedAtDac(ws: seq<Widget>, q: Query, s: int, n: int, only: int, depth: nat)
    requires Admits(ws, q, n, depth) && ws[n].kind == AudioOutput && n != 0
    ensures if EndsAt(ws[n], q, n) && (only == 0 || only == n) then
              Traced(ws, q, s, n, only, depth, n, Dac(n),
                     if only == 0 then ws else ws[n := MarkWidget(ws[n], q.assoc, s, -1)])
            else
              Traced(ws, q, s, n, only, depth, 0, Dac(n), ws)
  {
  }

  /** The end of a marking trace at one widget: choose the connection of a
      selecting widget and bind the widget to the pin. */
  method BindWidget(fg: FunctionGroup, nid: nat, assocNum: nat, s: nat, im: int)
    requires fg.ValidWidgets() && nid < fg.widgets.Length
    modifies fg.widgets
    ensures fg.ValidWidgets()
    ensures fg.widgets[..] == old(fg.widgets[..])[nid := MarkWidget(old(fg.widgets[nid]), assocNum, s, im)]
  {
    ghost var ws := fg.widgets[..];
    var widget := fg.widgets[nid];
    if Selecting(widget) {
      fg.widgets[nid] := fg.widgets[nid].(selconn := im);
    }
    fg.widgets[nid] := fg.widgets[nid].(
      traceDir := fg.widgets[nid].traceDir + {Out},
      bindAssoc := assocNum,
      bindSeqMask := fg.widgets[nid].bindSeqMask + {s});
    SameStructureOk(fg.startNode, ws, fg.widgets[..]);
  }

  /** audioTraceDac.  With only = 0 it changes nothing and answers Probe.
      Otherwise it answers `only` exactly when that DAC is reachable, and
      then the walk `route` it found has been marked; a failing trace
      changes nothing. */
  method AudioTraceDac(fg: FunctionGroup, assocNum: nat, s: nat, nid: int, dupseq: int, min: int, only: int, depth: nat)
    returns (m: int, ghost route: Route)
    requires fg.ValidWidgets() && fg.ValidAssocs()
    requires assocNum < fg.assocs.Length && s < PINS && dupseq < PINS
    modifies fg.widgets
    ensures fg.ValidWidgets()
    ensures Traced(old(fg.widgets[..]), QueryOf(old(fg.assocs[..]), assocNum, dupseq, min), s, nid, only, depth,
                   m, route, fg.widgets[..])
    decreases MAX_DEPTH + 1 - depth
  {
    ghost var ws := fg.widgets[..];
    ghost var q := QueryOf(fg.assocs[..], assocNum, dupseq, min);
    m, route := 0, Dac(nid);
    // Use only enabled and unused widgets; headphones may duplicate the first pin.
    if depth > MAX_DEPTH || !(fg.startNode <= nid < fg.widgets.Length) || !fg.widgets[nid].enable
       || (fg.widgets[nid].bindAssoc >= 0 && fg.widgets[nid].bindAssoc != assocNum)
       || (fg.widgets[nid].bindSeqMask != {} && !(dupseq >= 0 && dupseq in fg.widgets[nid].bindSeqMask)) {
      return;
    }
    var widget := fg.widgets[nid];
    assert Admits(ws, q, nid, depth);
    var im := -1;
    if widget.kind == AudioOutput {
      TracedAtDac(ws, q, s, nid, only, depth);
      if (only == 0 || only == nid) && nid >= min && (dupseq < 0 || nid == fg.assocs[assocNum].dacs[dupseq]) {
        m := nid;
      }
    } else if !(widget.kind == AudioInput || (widget.kind == PinComplex && depth > 0)) {
      m, im, route := TraceConnections(fg, assocNum, s, nid, dupseq, min, only, depth);
    }
    if m != 0 && only != 0 {
      BindWidget(fg, nid, assocNum, s, im);
    }
  }

  /** What the connections of widget nid lead to; on success the widgets behind
      connection im have been marked, and nid is to be. */
  ghost predicate Connected(ws: seq<Widget>, q: Query, s: int, nid: nat, only: int, depth: nat, m: int, im: int,
                            route: Route, ms: seq<Widget>)
  {
    if only == 0 then
      m == Probe(ws, q, nid, depth) && ms == ws
    else if m == 0 then
      !Reach(ws, q, nid, only, depth) && ms == ws
    else
      && m == only && route.Via? && route.nid == nid && route.conn == im && Target(route) == only
      && IsRoute(ws, q, route, depth) && FirstChoice(ws, q, route, depth)
      && Reach(ws, q, nid, only, depth)
      && nid < |ms| == |ws| && Mark(ws, route, q.assoc, s) == ms[nid := MarkWidget(ms[nid], q.assoc, s, im)]
  }

  /** The trace behind connection i has succeeded. */
  lemma ConnectedBy(ws: seq<Widget>, q: Query, s: int, nid: nat, only: int, depth: nat, i: nat, ret: int, r: Route,
                    ms: seq<Widget>)
    requires Admits(ws, q, nid, depth) && Passes(ws[nid], depth) && Usable(ws[nid], i) && only != 0 && ret != 0
    requires Traced(ws, q, s, ws[nid].conns[i], only, depth + 1, ret, r, ms)
    requires forall k :: 0 <= k < i && Usable(ws[nid], k) ==> !Reach(ws, q, ws[nid].conns[k], only, depth + 1)
    ensures ret == only && Connected(ws, q, s, nid, only, depth, ret, i, Via(nid, i, r), ms)
  {
    MarkVia(ws, q, nid, i, r, depth, s);
  }

  /** The loop of audioTraceDac over the connections of a widget: finds the
      DAC with the smallest node id respecting the constraints. */
  method TraceConnections(fg: FunctionGroup, assocNum: nat, s: nat, nid: int, dupseq: int, min: int, only: int,
                          depth: nat)
    returns (m: int, im: int, ghost route: Route)
    requires fg.ValidWidgets() && fg.ValidAssocs()
    requires assocNum < fg.assocs.Length && s < PINS && dupseq < PINS
    requires Admits(fg.widgets[..], QueryOf(fg.assocs[..], assocNum, dupseq, min), nid, depth)
    requires Passes(fg.widgets[nid], depth)
    modifies fg.widgets
    ensures fg.ValidWidgets()
    ensures Connected(old(fg.widgets[..]), QueryOf(old(fg.assocs[..]), assocNum, dupseq, min), s, nid, only, depth,
                      m, im, route, fg.widgets[..])
    decreases MAX_DEPTH + 1 - depth, 0
  {
    ghost var ws := fg.widgets[..];
    ghost var q := QueryOf(fg.assocs[..], assocNum, dupseq, min);
    var widget := fg.widgets[nid];
    m, im, route := 0, -1, Dac(nid);
    var i := 0;
    while i < |widget.conns|
      invariant 0 <= i <= |widget.conns|
      invariant fg.widgets[..] == ws
      invariant only == 0 ==> m == Choose(Answers(ws, q, nid, depth, i), widget.favoritDAC)
      invariant only == 0 ==> widget.favoritDAC !in Answers(ws, q, nid, depth, i)
      invariant only == 0 && dupseq >= 0 ==> m == 0
      invariant only != 0 ==> m == 0
      invariant only != 0 ==>
                  forall k :: 0 <= k < i && Usable(widget, k) ==> !Reach(ws, q, widget.conns[k], only, depth + 1)
    {
      var ret := 0;
      ghost var r := Dac(nid);
      if widget.connsenable[i] && (widget.selconn == -1 || widget.selconn == i) {
        ret, r := AudioTraceDac(fg, assocNum, s, widget.conns[i], dupseq, min, only, depth + 1);
      }
      if only == 0 {
        ProbeStep(ws, q, nid, depth, i, m, ret);
      }
      if ret != 0 {
        if only != 0 {
          ConnectedBy(ws, q, s, nid, only, depth, i, ret, r, fg.widgets[..]);
          route := Via(nid, i, r);
        }
        if widget.favoritDAC != 0 && ret == widget.favoritDAC {
          m, im := ret, i;
          return;
        }
        if m == 0 || ret < m {
          m, im := ret, i;
        }
        if only != 0 || dupseq >= 0 {
          return;
        }
      }
      i := i + 1;
    }
    if only != 0 {
      TracedNothing(ws, q, s, nid, only, depth, route);
    }
  }

  // ----- The two forms of the trace, compared -----

  /** Probing and then marking the DAC found marks that very DAC. */
  lemma ProbeThenMark(ws: seq<Widget>, q: Query, s: int, nid: int, depth: nat, res: int, r0: Route, ps: seq<Widget>,
                      m: int, r: Route, ms: seq<Widget>)
    requires Traced(ws, q, s, nid, 0, depth, res, r0, ps) && res != 0
    requires Traced(ps, q, s, nid, res, depth, m, r, ms)
    ensures ps == ws && m == res
    ensures IsRoute(ws, q, r, depth) && Source(r) == nid && Target(r) == res && FirstChoice(ws, q, r, depth)
    ensures ms == Mark(ws, r, q.assoc, s)
  {
    ProbeSound(ws, q, nid, depth);
  }

  /** The answer is no larger than any reachable DAC. */
  ghost predicate LeastAt(ws: seq<Widget>, q: Query, n: int, depth: nat)
  {
    forall d :: Reach(ws, q, n, d, depth) ==> Probe(ws, q, n, depth) <= d
  }

  /** d is the least DAC reachable from n. */
  ghost predicate LeastDac(ws: seq<Widget>, q: Query, n: int, depth: nat, d: int)
  {
    Reach(ws, q, n, d, depth) && forall e :: Reach(ws, q, n, e, depth) ==> d <= e
  }

  /** The favourite of n, where it is the least DAC behind some connection, is
      the least DAC of n. */
  ghost predicate FavouriteHarmless(ws: seq<Widget>, q: Query, n: int, depth: nat)
    requires Admits(ws, q, n, depth)
  {
    forall i :: Usable(ws[n], i) && LeastDac(ws, q, ws[n].conns[i], depth + 1, ws[n].favoritDAC) ==>
      forall e :: Reach(ws, q, n, e, depth) ==> ws[n].favoritDAC <= e
  }

  /** Probing answers the least DAC at n and wherever the probe goes from there. */
  ghost predicate LeastFrom(ws: seq<Widget>, q: Query, n: int, depth: nat)
    decreases MAX_DEPTH + 1 - depth
  {
    && LeastAt(ws, q, n, depth)
    && (Admits(ws, q, n, depth) && Passes(ws[n], depth) ==>
          forall i :: Usable(ws[n], i) ==> LeastFrom(ws, q, ws[n].conns[i], depth + 1))
  }

  /** No favourite does harm at n or wherever the probe goes from there. */
  ghost predicate HarmlessFrom(ws: seq<Widget>, q: Query, n: int, depth: nat)
    decreases MAX_DEPTH + 1 - depth
  {
    Admits(ws, q, n, depth) && Passes(ws[n], depth) ==>
      && FavouriteHarmless(ws, q, n, depth)
      && forall i :: Usable(ws[n], i) ==> HarmlessFrom(ws, q, ws[n].conns[i], depth + 1)
  }

  /** Where probing answers the least DAC, it answers d exactly if that is d. */
  lemma LeastIsProbed(ws: seq<Widget>, q: Query, n: int, depth: nat, d: int)
    requires !Live(ws, 0) && LeastAt(ws, q, n, depth)
    ensures LeastDac(ws, q, n, depth, d) <==> d != 0 && Probe(ws, q, n, depth) == d
  {
    if Probe(ws, q, n, depth) != 0 {
      ProbeSound(ws, q, n, depth);
    }
    if Reach(ws, q, n, d, depth) {
      ProbeComplete(ws, q, n, d, depth);
    }
  }

  /** The answer at n is the least offer, as long as the favourite is harmless. */
  lemma LeastOfOffers(ws: seq<Widget>, q: Query, n: int, depth: nat)
    requires !Live(ws, 0) && Admits(ws, q, n, depth) && Passes(ws[n], depth)
    requires forall i :: Usable(ws[n], i) ==> LeastAt(ws, q, ws[n].conns[i], depth + 1)
    ensures LeastAt(ws, q, n, depth) <==> FavouriteHarmless(ws, q, n, depth)
  {
    var answers := Answers(ws, q, n, depth, |ws[n].conns|);
    var f := ws[n].favoritDAC;
    forall i | Usable(ws[n], i)
      ensures LeastDac(ws, q, ws[n].conns[i], depth + 1, f) <==> f != 0 && Probe(ws, q, ws[n].conns[i], depth + 1) == f
    {
      LeastIsProbed(ws, q, ws[n].conns[i], depth + 1, f);
    }
    assert f in answers <==> exists i :: Usable(ws[n], i) && LeastDac(ws, q, ws[n].conns[i], depth + 1, f);
    forall d | Reach(ws, q, n, d, depth) ensures exists x :: x in answers && x <= d {
      var i :| Usable(ws[n], i) && Reach(ws, q, ws[n].conns[i], d, depth + 1);
      ProbeComplete(ws, q, ws[n].conns[i], d, depth + 1);
      assert LeastAt(ws, q, ws[n].conns[i], depth + 1);
      assert Probe(ws, q, ws[n].conns[i], depth + 1) in answers;
    }
  }

  /** Probing answers the least reachable DAC at a pin, and wherever the probe
      goes from the pin, exactly when no favourite there is the least DAC behind
      one connection of its widget and above one behind another. */
  lemma {:induction false} ProbeLeastIff(ws: seq<Widget>, q: Query, n: int, depth: nat)
    requires !Live(ws, 0)
    ensures LeastFrom(ws, q, n, depth) <==> HarmlessFrom(ws, q, n, depth)
    decreases MAX_DEPTH + 1 - depth
  {
    if Admits(ws, q, n, depth) && Passes(ws[n], depth) {
      forall i | Usable(ws[n], i)
        ensures LeastFrom(ws, q, ws[n].conns[i], depth + 1) <==> HarmlessFrom(ws, q, ws[n].conns[i], depth + 1)
      {
        ProbeLeastIff(ws, q, ws[n].conns[i], depth + 1);
      }
      if forall i :: Usable(ws[n], i) ==> LeastFrom(ws, q, ws[n].conns[i], depth + 1) {
        LeastOfOffers(ws, q, n, depth);
      }
    }
  }

  lemma {:induction false} NoFavouriteHarmless(ws: seq<Widget>, q: Query, n: int, depth: nat)
    requires !Live(ws, 0)
    requires forall k :: 0 <= k < |ws| ==> ws[k].favoritDAC == 0
    ensures HarmlessFrom(ws, q, n, depth)
    decreases MAX_DEPTH + 1 - depth
  {
    if Admits(ws, q, n, depth) && Passes(ws[n], depth) {
      forall i | Usable(ws[n], i) ensures !Reach(ws, q, ws[n].conns[i], 0, depth + 1) {
        if Reach(ws, q, ws[n].conns[i], 0, depth + 1) {
          ReachedDac(ws, q, ws[n].conns[i], 0, depth + 1);
        }
      }
      forall i | Usable(ws[n], i) ensures HarmlessFrom(ws, q, ws[n].conns[i], depth + 1) {
        NoFavouriteHarmless(ws, q, ws[n].conns[i], depth + 1);
      }
    }
  }

  /** Without favourites the answer is the least reachable DAC, 0 for none. */
  lemma ProbeWithoutFavourites(ws: seq<Widget>, q: Query, n: int, depth: nat)
    requires !Live(ws, 0)
    requires forall k :: 0 <= k < |ws| ==> ws[k].favoritDAC == 0
    ensures Probe(ws, q, n, depth) == 0 ==> forall d :: !Reach(ws, q, n, d, depth)
    ensures Probe(ws, q, n, depth) != 0 ==> Reach(ws, q, n, Probe(ws, q, n, depth), depth)
    ensures forall d :: Reach(ws, q, n, d, depth) ==> Probe(ws, q, n, depth) <= d
  {
    NoFavouriteHarmless(ws, q, n, depth);
    ProbeLeastIff(ws, q, n, depth);
    if Probe(ws, q, n, depth) != 0 {
      ProbeSound(ws, q, n, depth);
    }
    forall d | Reach(ws, q, n, d, depth) ensures Probe(ws, q, n, depth) != 0 {
      ProbeComplete(ws, q, n, d, depth);
    }
  }

  function PlainWidget(kind: Kind, conns: seq<int>): Widget
  {
    Widget(kind, true, conns, seq(|conns|, _ => true), |conns|, -1, -1, {}, {}, false, 0, 0, 0, false, 0, 0)
  }

  /** A favourite DAC overrides the least one: pin 3 reaches the DACs 1 and 2
      and favours 2. */
  lemma FavouriteOverridesLeast() returns (ws: seq<Widget>, q: Query)
    ensures !Live(ws, 0) && Probe(ws, q, 3, 0) == 2 && Reach(ws, q, 3, 1, 0)
  {
    var off := PlainWidget(VendorDefined, []).(enable := false);
    var dac := PlainWidget(AudioOutput, []);
    var pin := PlainWidget(PinComplex, [1, 2]).(favoritDAC := 2);
    ws := [off, dac, dac, pin];
    q := Query(0, -1, 0, 0);
    assert Probe(ws, q, 1, 1) == 1 && Probe(ws, q, 2, 1) == 2;
    assert Usable(ws[3], 0) && Usable(ws[3], 1);
    assert Reach(ws, q, ws[3].conns[0], 1, 1);
    assert Probe(ws, q, ws[3].conns[1], 1) in Answers(ws, q, 3, 0, 2);
  }
}
