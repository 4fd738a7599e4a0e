/** Tracing the pseudo associations: audioTraceToOut and
    audioTraceAssociationExtra look for widgets that feed an output
    association (input monitors, the beeper). */
module MonitorTrace {
  import opened HdaGraph
  import opened OutputTrace
  import opened OutputAssociation

  /** Bound to an output association, or already found to feed one. */
  predicate TapsHere(w: Widget, assocs: seq<Assoc>)
  {
    w.bindAssoc == -2 || (0 <= w.bindAssoc < |assocs| && assocs[w.bindAssoc].dir == Out)
  }

  /** ... or a beep generator, which the last step binds to -2 in any case. */
  predicate LeadsOutHere(w: Widget, assocs: seq<Assoc>)
  {
    TapsHere(w, assocs) || w.kind == BeepGenerator
  }

  /** j is enabled and has an enabled connection from n. */
  ghost predicate Consumer(ws: seq<Widget>, n: int, j: int)
  {
    Live(ws, j) && exists i :: Enabled(ws[j], i) && ws[j].conns[i] == n
  }

  /** A trace that arrives at the widget may go on to its consumers. */
  predicate Transit(w: Widget)
  {
    w.bindAssoc == -1 && w.kind != AudioInput && w.kind != PinComplex
  }

  /** A walk of at most k hops along consumers, through unbound widgets only,
      leads from n to a widget that leads out. */
  ghost predicate LeadsWithin(ws: seq<Widget>, assocs: seq<Assoc>, n: int, k: nat)
    decreases k
  {
    k > 0 &&
    exists j :: Consumer(ws, n, j) &&
      (LeadsOutHere(ws[j], assocs) || (Transit(ws[j]) && LeadsWithin(ws, assocs, j, k - 1)))
  }

  ghost predicate LeadsOut(ws: seq<Widget>, assocs: seq<Assoc>, n: int)
  {
    exists k: nat :: LeadsWithin(ws, assocs, n, k)
  }

  lemma LeadsOutStep(ws: seq<Widget>, assocs: seq<Assoc>, n: int, j: int)
    requires Consumer(ws, n, j)
    requires LeadsOutHere(ws[j], assocs) || (Transit(ws[j]) && LeadsOut(ws, assocs, j))
    ensures LeadsOut(ws, assocs, n)
  {
    if LeadsOutHere(ws[j], assocs) {
      assert LeadsWithin(ws, assocs, n, 1);
    } else {
      var k: nat :| LeadsWithin(ws, assocs, j, k);
      assert LeadsWithin(ws, assocs, n, k + 1);
    }
  }

  predicate BoundTo(w: Widget, assocs: seq<Assoc>, dir: Dir)
  {
    0 <= w.bindAssoc < |assocs| && assocs[w.bindAssoc].dir == dir
  }

  /** Where the extra traces start: the mixers and pins of input associations
      and the beep generators. */
  predicate Starts(w: Widget, assocs: seq<Assoc>)
  {
    ((w.kind == Mixer || w.kind == PinComplex) && BoundTo(w, assocs, In)) || w.kind == BeepGenerator
  }

  /** A trace that began at one of these widgets arrives at n after `depth` hops. */
  ghost predicate MetAt(ws: seq<Widget>, assocs: seq<Assoc>, n: int, depth: nat)
    decreases depth
  {
    && Live(ws, n)
    && if depth == 0 then Starts(ws[n], assocs)
       else exists m :: MetAt(ws, assocs, m, depth - 1) && Consumer(ws, m, n) && (depth > 1 ==> Transit(ws[m]))
  }

  ghost predicate Met(ws: seq<Widget>, assocs: seq<Assoc>, n: int)
  {
    exists depth: nat :: depth <= MAX_DEPTH && MetAt(ws, assocs, n, depth)
  }

  /** What the extra trace may do to a widget: raise its monitor flag, choose
      the connection of an undecided selector, and bind an unbound widget to
      the pseudo association -2, but never a pin or a converter for input. */
  predicate TappedAt(w: Widget, w': Widget)
  {
    && w' == w.(monitor := w'.monitor, selconn := w'.selconn, bindAssoc := w'.bindAssoc)
    && (w.monitor ==> w'.monitor)
    && (w'.selconn == w.selconn || (w.enable && w.kind == Selector && w.selconn == -1 && Enabled(w, w'.selconn)))
    && (w'.bindAssoc == w.bindAssoc || (w.enable && w'.bindAssoc == -2 && Transit(w))
        || (w.enable && w'.bindAssoc == -2 && w.kind == BeepGenerator))
  }

  /** Why widget n may have become w: it is a beep generator bound to -2, or a
      trace has met it.  Then it has become a monitor as a widget of an output
      association, or as a mixer of an input association that leads out; it has
      been bound to -2 as it leads out; it has selected, among what the traces
      have met, as it leads out or is where a walk out ends. */
  ghost predicate TappedFor(ws: seq<Widget>, assocs: seq<Assoc>, n: int, w: Widget)
    requires 0 <= n < |ws|
  {
    && (w != ws[n] ==> ws[n].kind == BeepGenerator || Met(ws, assocs, n))
    && (w.bindAssoc != ws[n].bindAssoc ==> ws[n].kind == BeepGenerator || LeadsOut(ws, assocs, n))
    && (w.monitor && !ws[n].monitor ==>
          || BoundTo(ws[n], assocs, Out)
          || (ws[n].kind == Mixer && BoundTo(ws[n], assocs, In) && LeadsOut(ws, assocs, n)))
    && (w.selconn != ws[n].selconn ==>
          && (LeadsOutHere(ws[n], assocs) || LeadsOut(ws, assocs, n))
          && 0 <= w.selconn < |ws[n].conns| && Met(ws, assocs, ws[n].conns[w.selconn]))
  }

  /** ws' is ws after some extra tracing. */
  ghost predicate Tapped(ws: seq<Widget>, ws': seq<Widget>, assocs: seq<Assoc>)
  {
    && |ws'| == |ws|
    && forall n :: 0 <= n < |ws| ==> TappedAt(ws[n], ws'[n]) && TappedFor(ws, assocs, n, ws'[n])
  }

  /** One widget changes further. */
  lemma TappedUpdate(ws: seq<Widget>, ws1: seq<Widget>, assocs: seq<Assoc>, n: nat, w: Widget)
    requires Tapped(ws, ws1, assocs) && n < |ws1| && TappedAt(ws1[n], w) && TappedFor(ws, assocs, n, w)
    ensures Tapped(ws, ws1[n := w], assocs)
  {
    assert TappedAt(ws[n], ws1[n]);
    assert TappedAt(ws[n], w);
  }

  lemma TappedOk(startNode: nat, ws: seq<Widget>, ws': seq<Widget>, assocs: seq<Assoc>)
    requires Tapped(ws, ws', assocs) && WidgetsOk(startNode, ws)
    ensures WidgetsOk(startNode, ws')
  {
    forall n | 0 <= n < |ws| ensures WidgetOk(ws'[n]) && ws'[n].enable == ws[n].enable {
      assert TappedAt(ws[n], ws'[n]);
    }
  }

  /** The trace from n succeeds without the help of earlier ones. */
  ghost predicate ReachesOut(ws: seq<Widget>, assocs: seq<Assoc>, n: int, depth: nat)
    decreases MAX_DEPTH + 1 - depth
  {
    && depth <= MAX_DEPTH && Live(ws, n)
    && if depth > 0 && ws[n].bindAssoc != -1 then TapsHere(ws[n], assocs)
       else
         && ws[n].kind != AudioInput && (ws[n].kind == PinComplex ==> depth == 0)
         && exists j :: Consumer(ws, n, j) && ReachesOut(ws, assocs, j, depth + 1)
  }

  /** What audioTraceToOut answers, ws being the state before all extra
      tracing: it succeeds when the walk was open from the start, and only if
      n leads out. */
  ghost predicate TapResult(ws: seq<Widget>, assocs: seq<Assoc>, n: int, depth: nat, res: bool)
  {
    && (ReachesOut(ws, assocs, n, depth) ==> res)
    && (res ==>
          && Live(ws, n) && depth <= MAX_DEPTH
          && if depth == 0 then LeadsOut(ws, assocs, n)
             else LeadsOutHere(ws[n], assocs) || (Transit(ws[n]) && LeadsOut(ws, assocs, n)))
  }

  /** The two bounds differ in the length of the walk only. */
  lemma {:induction false} ReachesOutIff(ws: seq<Widget>, assocs: seq<Assoc>, n: int, depth: nat)
    requires depth <= MAX_DEPTH && Live(ws, n)
    requires if depth == 0 then ws[n].kind != AudioInput else Transit(ws[n])
    requires forall j, i :: Live(ws, j) && Enabled(ws[j], i) ==> ws[j].kind != BeepGenerator
    ensures ReachesOut(ws, assocs, n, depth) <==> LeadsWithin(ws, assocs, n, MAX_DEPTH - depth)
    decreases MAX_DEPTH - depth
  {
    if depth < MAX_DEPTH {
      forall j | Consumer(ws, n, j)
        ensures ReachesOut(ws, assocs, j, depth + 1) <==>
                LeadsOutHere(ws[j], assocs) || (Transit(ws[j]) && LeadsWithin(ws, assocs, j, MAX_DEPTH - depth - 1))
      {
        if Transit(ws[j]) {
          ReachesOutIff(ws, assocs, j, depth + 1);
        }
      }
    }
  }

  /** Monitor flags, bindings to -2 and selections are never taken back. */
  predicate MonitorsRise(ws: seq<Widget>, ws': seq<Widget>)
  {
    && |ws'| == |ws|
    && forall n :: 0 <= n < |ws| ==>
         && (ws[n].monitor ==> ws'[n].monitor) && (ws[n].bindAssoc == -2 ==> ws'[n].bindAssoc == -2)
         && (ws[n].selconn != -1 ==> ws'[n].selconn == ws[n].selconn)
  }

  lemma RiseTwice(ws: seq<Widget>, ws1: seq<Widget>, ws2: seq<Widget>)
    requires MonitorsRise(ws, ws1) && MonitorsRise(ws1, ws2)
    ensures MonitorsRise(ws, ws2)
  {
  }

  // ----- What a successful trace leaves behind -----

  /** j takes n, and is no undecided selector in ws1. */
  ghost predicate OpenedInto(ws: seq<Widget>, ws1: seq<Widget>, n: int, j: int)
  {
    Consumer(ws, n, j) && j < |ws1| && (ws[j].kind == Selector ==> ws1[j].selconn != -1)
  }

  /** A trace ends at the widget; one of an output association is a monitor,
      unless it is a beep generator. */
  predicate OpenEnd(w: Widget, w1: Widget, assocs: seq<Assoc>)
  {
    LeadsOutHere(w, assocs) && (BoundTo(w, assocs, Out) && w.kind != BeepGenerator ==> w1.monitor)
  }

  /** A walk that leads out within k hops is open in ws1: its unbound widgets
      belong to the pseudo association, its selectors are decided, and the
      widget of the output association is a monitor. */
  ghost predicate OpenWithin(ws: seq<Widget>, ws1: seq<Widget>, assocs: seq<Assoc>, n: int, k: nat)
    decreases k
  {
    k > 0 &&
    exists j :: OpenedInto(ws, ws1, n, j) &&
      (|| OpenEnd(ws[j], ws1[j], assocs)
       || (Transit(ws[j]) && ws1[j].bindAssoc == -2 && OpenWithin(ws, ws1, assocs, j, k - 1)))
  }

  ghost predicate Opened(ws: seq<Widget>, ws1: seq<Widget>, assocs: seq<Assoc>, n: int)
  {
    exists k: nat :: OpenWithin(ws, ws1, assocs, n, k)
  }

  /** A trace that came to n has succeeded there. */
  ghost predicate OpenFrom(ws: seq<Widget>, ws1: seq<Widget>, assocs: seq<Assoc>, n: int)
  {
    && 0 <= n < |ws| && |ws1| == |ws|
    && (|| OpenEnd(ws[n], ws1[n], assocs)
        || (Transit(ws[n]) && ws1[n].bindAssoc == -2 && Opened(ws, ws1, assocs, n)))
  }

  lemma OpenedStep(ws: seq<Widget>, ws1: seq<Widget>, assocs: seq<Assoc>, n: int, j: int)
    requires OpenedInto(ws, ws1, n, j) && OpenFrom(ws, ws1, assocs, j)
    ensures Opened(ws, ws1, assocs, n)
  {
    if OpenEnd(ws[j], ws1[j], assocs) {
      assert OpenWithin(ws, ws1, assocs, n, 1);
    } else {
      var k: nat :| OpenWithin(ws, ws1, assocs, j, k);
      assert OpenWithin(ws, ws1, assocs, n, k + 1);
    }
  }

  lemma {:induction false} OpenWithinStays(ws: seq<Widget>, ws1: seq<Widget>, ws2: seq<Widget>, assocs: seq<Assoc>,
                                           n: int, k: nat)
    requires MonitorsRise(ws1, ws2) && OpenWithin(ws, ws1, assocs, n, k)
    ensures OpenWithin(ws, ws2, assocs, n, k)
    decreases k
  {
    var j :| OpenedInto(ws, ws1, n, j) &&
             (|| OpenEnd(ws[j], ws1[j], assocs)
              || (Transit(ws[j]) && ws1[j].bindAssoc == -2 && OpenWithin(ws, ws1, assocs, j, k - 1)));
    assert OpenedInto(ws, ws2, n, j);
    if !OpenEnd(ws[j], ws1[j], assocs) {
      OpenWithinStays(ws, ws1, ws2, assocs, j, k - 1);
    }
  }

  /** Further tracing closes nothing. */
  lemma OpenedStays(ws: seq<Widget>, ws1: seq<Widget>, ws2: seq<Widget>, assocs: seq<Assoc>, n: int)
    requires MonitorsRise(ws1, ws2) && Opened(ws, ws1, assocs, n)
    ensures Opened(ws, ws2, assocs, n)
  {
    var k: nat :| OpenWithin(ws, ws1, assocs, n, k);
    OpenWithinStays(ws, ws1, ws2, assocs, n, k);
  }

  lemma OpenFromStays(ws: seq<Widget>, ws1: seq<Widget>, ws2: seq<Widget>, assocs: seq<Assoc>, n: int)
    requires MonitorsRise(ws1, ws2) && OpenFrom(ws, ws1, assocs, n)
    ensures OpenFrom(ws, ws2, assocs, n)
  {
    if !OpenEnd(ws[n], ws1[n], assocs) {
      OpenedStays(ws, ws1, ws2, assocs, n);
    }
  }

  /** What has joined the pseudo association has an open walk, beep generators
      aside. */
  ghost predicate JoinedOpen(ws: seq<Widget>, ws1: seq<Widget>, assocs: seq<Assoc>)
  {
    && |ws1| == |ws|
    && forall n :: 0 <= n < |ws| && ws[n].bindAssoc == -1 && ws[n].kind != BeepGenerator && ws1[n].bindAssoc == -2 ==>
         Opened(ws, ws1, assocs, n)
  }

  /** The extra trace that began in ws is in state ws1. */
  ghost predicate Tapping(startNode: nat, ws: seq<Widget>, ws1: seq<Widget>, assocs: seq<Assoc>)
  {
    && WidgetsOk(startNode, ws) && Tapped(ws, ws1, assocs) && JoinedOpen(ws, ws1, assocs)
    && forall n :: 0 <= n < |ws| ==> -2 <= ws[n].bindAssoc < |assocs|
  }

  lemma TappingUpdate(startNode: nat, ws: seq<Widget>, ws1: seq<Widget>, assocs: seq<Assoc>, n: nat, w: Widget)
    requires Tapping(startNode, ws, ws1, assocs) && n < |ws1| && TappedAt(ws1[n], w) && TappedFor(ws, assocs, n, w)
    requires w.bindAssoc != ws1[n].bindAssoc ==> ws[n].kind == BeepGenerator || Opened(ws, ws1, assocs, n)
    ensures Tapping(startNode, ws, ws1[n := w], assocs) && MonitorsRise(ws1, ws1[n := w])
  {
    TappedUpdate(ws, ws1, assocs, n, w);
    var ws2 := ws1[n := w];
    assert MonitorsRise(ws1, ws2);
    forall m | 0 <= m < |ws| && ws[m].bindAssoc == -1 && ws[m].kind != BeepGenerator && ws2[m].bindAssoc == -2
      ensures Opened(ws, ws2, assocs, m)
    {
      OpenedStays(ws, ws1, ws2, assocs, m);
    }
  }

  /** Stopping at a bound widget below the start of the trace. */
  lemma TapStops(startNode: nat, ws: seq<Widget>, ws1: seq<Widget>, assocs: seq<Assoc>, n: nat, depth: nat)
    requires Tapping(startNode, ws, ws1, assocs) && Live(ws1, n) && 0 < depth <= MAX_DEPTH && ws1[n].bindAssoc != -1
    ensures TapResult(ws, assocs, n, depth, TapsHere(ws1[n], assocs))
    ensures ws1[n].bindAssoc == -2 ==> OpenFrom(ws, ws1, assocs, n)
  {
    assert TappedAt(ws[n], ws1[n]);
    if ws1[n].bindAssoc == -2 && ws[n].bindAssoc == -1 && ws[n].kind != BeepGenerator {
      assert Opened(ws, ws1, assocs, n);
    }
  }

  /** audioTraceToOut.  `ws` is the state the extra trace started from. */
  method AudioTraceToOut(fg: FunctionGroup, nid: int, depth: nat, ghost ws: seq<Widget>) returns (res: bool)
    requires Tapping(fg.startNode, ws, fg.widgets[..], fg.assocs[..]) && MetAt(ws, fg.assocs[..], nid, depth)
    modifies fg.widgets
    ensures Tapping(fg.startNode, ws, fg.widgets[..], fg.assocs[..])
    ensures MonitorsRise(old(fg.widgets[..]), fg.widgets[..])
    ensures TapResult(ws, fg.assocs[..], nid, depth, res)
    ensures res ==> if depth == 0 then Opened(ws, fg.widgets[..], fg.assocs[..], nid)
                    else OpenFrom(ws, fg.widgets[..], fg.assocs[..], nid)
    decreases MAX_DEPTH + 1 - depth, 1
  {
    if depth > MAX_DEPTH || !(fg.startNode <= nid < fg.widgets.Length) || !fg.widgets[nid].enable {
      assert TappedAt(ws[nid], fg.widgets[nid]);
      return false;
    }
    assert TappedAt(ws[nid], fg.widgets[nid]);
    if depth > 0 && fg.widgets[nid].bindAssoc != -1 {
      res := StopAtBound(fg, nid, depth, ws);
      return;
    }
    if fg.widgets[nid].kind == AudioInput || (fg.widgets[nid].kind == PinComplex && depth > 0) {
      return false;
    }
    ghost var before := fg.widgets[..];
    res := TapConsumers(fg, nid, depth, ws);
    if res {
      ghost var between := fg.widgets[..];
      BindExtra(fg, nid, depth, ws);
      RiseTwice(before, between, fg.widgets[..]);
    }
  }

  /** A bound widget below the start of a trace ends it. */
  method StopAtBound(fg: FunctionGroup, nid: nat, depth: nat, ghost ws: seq<Widget>) returns (res: bool)
    requires Tapping(fg.startNode, ws, fg.widgets[..], fg.assocs[..]) && MetAt(ws, fg.assocs[..], nid, depth)
    requires 0 < depth <= MAX_DEPTH && nid < fg.widgets.Length && fg.widgets[nid].bindAssoc != -1
    modifies fg.widgets
    ensures Tapping(fg.startNode, ws, fg.widgets[..], fg.assocs[..])
    ensures MonitorsRise(old(fg.widgets[..]), fg.widgets[..])
    ensures TapResult(ws, fg.assocs[..], nid, depth, res)
    ensures res ==> OpenFrom(ws, fg.widgets[..], fg.assocs[..], nid)
  {
    assert TappedAt(ws[nid], fg.widgets[nid]) && Met(ws, fg.assocs[..], nid);
    TapStops(fg.startNode, ws, fg.widgets[..], fg.assocs[..], nid, depth);
    res := fg.widgets[nid].bindAssoc < 0 || fg.assocs[fg.widgets[nid].bindAssoc].dir == Out;
    if res && fg.widgets[nid].bindAssoc >= 0 {
      TappingUpdate(fg.startNode, ws, fg.widgets[..], fg.assocs[..], nid, fg.widgets[nid].(monitor := true));
      fg.widgets[nid] := fg.widgets[nid].(monitor := true);
    }
  }

  /** An unbound widget that leads out joins the pseudo association. */
  method BindExtra(fg: FunctionGroup, nid: nat, depth: nat, ghost ws: seq<Widget>)
    requires Tapping(fg.startNode, ws, fg.widgets[..], fg.assocs[..]) && MetAt(ws, fg.assocs[..], nid, depth)
    requires depth <= MAX_DEPTH && LeadsOut(ws, fg.assocs[..], nid) && (depth > 0 ==> Transit(ws[nid]))
    requires Opened(ws, fg.widgets[..], fg.assocs[..], nid)
    modifies fg.widgets
    ensures Tapping(fg.startNode, ws, fg.widgets[..], fg.assocs[..])
    ensures MonitorsRise(old(fg.widgets[..]), fg.widgets[..])
    ensures Opened(ws, fg.widgets[..], fg.assocs[..], nid)
    ensures depth > 0 ==> OpenFrom(ws, fg.widgets[..], fg.assocs[..], nid)
  {
    assert TappedAt(ws[nid], fg.widgets[nid]) && Met(ws, fg.assocs[..], nid);
    if fg.widgets[nid].bindAssoc == -1 {
      TappingUpdate(fg.startNode, ws, fg.widgets[..], fg.assocs[..], nid, fg.widgets[nid].(bindAssoc := -2));
      OpenedStays(ws, fg.widgets[..], fg.widgets[..][nid := fg.widgets[nid].(bindAssoc := -2)], fg.assocs[..], nid);
      fg.widgets[nid] := fg.widgets[nid].(bindAssoc := -2);
    }
  }

  /** No consumer of nid below j reaches out. */
  ghost predicate NoneReach(ws: seq<Widget>, assocs: seq<Assoc>, nid: int, depth: nat, j: int)
  {
    forall k :: k < j && Consumer(ws, nid, k) ==> !ReachesOut(ws, assocs, k, depth)
  }

  lemma NoneReachNext(ws: seq<Widget>, assocs: seq<Assoc>, nid: int, depth: nat, j: int, next: int)
    requires NoneReach(ws, assocs, nid, depth, j) && next == j + 1
    requires Consumer(ws, nid, j) ==> !ReachesOut(ws, assocs, j, depth)
    ensures NoneReach(ws, assocs, nid, depth, next)
  {
  }

  /** The loop over the consumers of nid. */
  method TapConsumers(fg: FunctionGroup, nid: nat, depth: nat, ghost ws: seq<Widget>) returns (res: bool)
    requires Tapping(fg.startNode, ws, fg.widgets[..], fg.assocs[..])
    requires depth <= MAX_DEPTH && MetAt(ws, fg.assocs[..], nid, depth) && (depth > 0 ==> Transit(ws[nid]))
    modifies fg.widgets
    ensures Tapping(fg.startNode, ws, fg.widgets[..], fg.assocs[..])
    ensures MonitorsRise(old(fg.widgets[..]), fg.widgets[..])
    ensures res ==> LeadsOut(ws, fg.assocs[..], nid) && Opened(ws, fg.widgets[..], fg.assocs[..], nid)
    ensures !res ==> NoneReach(ws, fg.assocs[..], nid, depth + 1, fg.widgets.Length)
    decreases MAX_DEPTH + 1 - depth, 0
  {
    ghost var before, assocs := fg.widgets[..], fg.assocs[..];
    res := false;
    var j := fg.startNode;
    while j < fg.widgets.Length
      invariant fg.startNode <= j <= fg.widgets.Length
      invariant Tapping(fg.startNode, ws, fg.widgets[..], assocs)
      invariant MonitorsRise(before, fg.widgets[..])
      invariant res ==> LeadsOut(ws, assocs, nid) && Opened(ws, fg.widgets[..], assocs, nid)
      invariant !res ==> NoneReach(ws, assocs, nid, depth + 1, j)
    {
      assert TappedAt(ws[j], fg.widgets[j]);
      ghost var k := j;
      if fg.widgets[j].enable {
        ghost var between := fg.widgets[..];
        var found := TapConsumer(fg, nid, j, depth, ws);
        RiseTwice(before, between, fg.widgets[..]);
        if res {
          OpenedStays(ws, between, fg.widgets[..], assocs, nid);
        }
        res := res || found;
      }
      j := j + 1;
      if !res {
        NoneReachNext(ws, assocs, nid, depth + 1, k, j);
      }
    }
  }

  method TapConsumer(fg: FunctionGroup, nid: nat, j: nat, depth: nat, ghost ws: seq<Widget>) returns (res: bool)
    requires Tapping(fg.startNode, ws, fg.widgets[..], fg.assocs[..])
    requires depth <= MAX_DEPTH && MetAt(ws, fg.assocs[..], nid, depth) && (depth > 0 ==> Transit(ws[nid]))
    requires fg.startNode <= j < fg.widgets.Length && fg.widgets[j].enable
    modifies fg.widgets
    ensures Tapping(fg.startNode, ws, fg.widgets[..], fg.assocs[..])
    ensures MonitorsRise(old(fg.widgets[..]), fg.widgets[..])
    ensures res ==> LeadsOut(ws, fg.assocs[..], nid) && Opened(ws, fg.widgets[..], fg.assocs[..], nid)
    ensures !res && Consumer(ws, nid, j) ==> !ReachesOut(ws, fg.assocs[..], j, depth + 1)
    decreases MAX_DEPTH + 1 - depth, 0, 1
  {
    ghost var before := fg.widgets[..];
    assert TappedAt(ws[j], fg.widgets[j]);
    var conns, connsenable := fg.widgets[j].conns, fg.widgets[j].connsenable;
    res := false;
    var i := 0;
    while i < |conns|
      invariant Tapping(fg.startNode, ws, fg.widgets[..], fg.assocs[..])
      invariant MonitorsRise(before, fg.widgets[..])
      invariant 0 <= i
      invariant res ==> LeadsOut(ws, fg.assocs[..], nid) && Opened(ws, fg.widgets[..], fg.assocs[..], nid)
      invariant !res && ReachesOut(ws, fg.assocs[..], j, depth + 1) ==>
                  forall k :: k < i && Enabled(ws[j], k) ==> conns[k] != nid
    {
      if connsenable[i] && conns[i] == nid {
        ghost var between := fg.widgets[..];
        TapReached(ws, fg.assocs[..], nid, j, i, depth);
        var found := TapEdge(fg, nid, j, i, depth, ws);
        RiseTwice(before, between, fg.widgets[..]);
        if res {
          OpenedStays(ws, between, fg.widgets[..], fg.assocs[..], nid);
        }
        res := res || found;
      }
      i := i + 1;
    }
  }

  lemma TapReached(ws: seq<Widget>, assocs: seq<Assoc>, n: int, j: int, i: int, depth: nat)
    requires MetAt(ws, assocs, n, depth) && (depth > 0 ==> Transit(ws[n]))
    requires Live(ws, j) && Enabled(ws[j], i) && ws[j].conns[i] == n
    ensures Consumer(ws, n, j) && MetAt(ws, assocs, j, depth + 1)
  {
  }

  lemma TapLeads(ws: seq<Widget>, assocs: seq<Assoc>, n: int, j: int, depth: nat)
    requires Consumer(ws, n, j) && MetAt(ws, assocs, j, depth + 1) && TapResult(ws, assocs, j, depth + 1, true)
    ensures LeadsOut(ws, assocs, n) && Met(ws, assocs, j)
    ensures LeadsOutHere(ws[j], assocs) || LeadsOut(ws, assocs, j)
  {
    LeadsOutStep(ws, assocs, n, j);
  }

  /** One connection from nid to j: trace on from j, and let an undecided
      selector choose it. */
  method TapEdge(fg: FunctionGroup, nid: nat, j: nat, i: nat, depth: nat, ghost ws: seq<Widget>) returns (r: bool)
    requires Tapping(fg.startNode, ws, fg.widgets[..], fg.assocs[..])
    requires depth <= MAX_DEPTH && MetAt(ws, fg.assocs[..], nid, depth) && MetAt(ws, fg.assocs[..], j, depth + 1)
    requires Consumer(ws, nid, j) && Enabled(ws[j], i) && ws[j].conns[i] == nid
    modifies fg.widgets
    ensures Tapping(fg.startNode, ws, fg.widgets[..], fg.assocs[..])
    ensures MonitorsRise(old(fg.widgets[..]), fg.widgets[..])
    ensures r ==> LeadsOut(ws, fg.assocs[..], nid) && Opened(ws, fg.widgets[..], fg.assocs[..], nid)
    ensures !r ==> !ReachesOut(ws, fg.assocs[..], j, depth + 1)
    decreases MAX_DEPTH + 1 - depth, 0, 0
  {
    ghost var before := fg.widgets[..];
    r := AudioTraceToOut(fg, j, depth + 1, ws);
    if r {
      InputChosen(fg.startNode, ws, before, fg.widgets[..], fg.assocs[..], nid, j, i, depth);
      ChooseInput(fg, j, i);
    }
  }

  /** An undecided selector takes connection i. */
  function SelectsInput(w: Widget, i: nat): Widget
  {
    if w.kind == Selector && w.selconn == -1 then w.(selconn := i) else w
  }

  /** An undecided selector chooses the connection the trace came by. */
  method ChooseInput(fg: FunctionGroup, j: nat, i: nat)
    requires j < fg.widgets.Length
    modifies fg.widgets
    ensures fg.widgets[..] == old(fg.widgets[..])[j := SelectsInput(old(fg.widgets[j]), i)]
  {
    if fg.widgets[j].kind == Selector && fg.widgets[j].selconn == -1 {
      fg.widgets[j] := fg.widgets[j].(selconn := i);
    }
  }

  lemma InputChosen(startNode: nat, ws: seq<Widget>, before: seq<Widget>, ws1: seq<Widget>, assocs: seq<Assoc>,
                    nid: nat, j: nat, i: nat, depth: nat)
    requires Tapping(startNode, ws, ws1, assocs) && MonitorsRise(before, ws1)
    requires Consumer(ws, nid, j) && Enabled(ws[j], i) && ws[j].conns[i] == nid
    requires depth <= MAX_DEPTH && MetAt(ws, assocs, nid, depth) && MetAt(ws, assocs, j, depth + 1)
    requires TapResult(ws, assocs, j, depth + 1, true) && OpenFrom(ws, ws1, assocs, j)
    ensures var ws2 := ws1[j := SelectsInput(ws1[j], i)];
            && Tapping(startNode, ws, ws2, assocs) && MonitorsRise(before, ws2)
            && LeadsOut(ws, assocs, nid) && Opened(ws, ws2, assocs, nid)
  {
    var ws2 := ws1[j := SelectsInput(ws1[j], i)];
    TapLeads(ws, assocs, nid, j, depth);
    SelectsTaps(startNode, ws, ws1, assocs, nid, j, i, depth);
    RiseTwice(before, ws1, ws2);
    OpenFromStays(ws, ws1, ws2, assocs, j);
    OpenedStep(ws, ws2, assocs, nid, j);
  }

  lemma SelectsTaps(startNode: nat, ws: seq<Widget>, ws1: seq<Widget>, assocs: seq<Assoc>, nid: nat, j: nat, i: nat,
                    depth: nat)
    requires Tapping(startNode, ws, ws1, assocs) && depth <= MAX_DEPTH && MetAt(ws, assocs, nid, depth)
    requires j < |ws| && ws[j].enable && Enabled(ws[j], i) && ws[j].conns[i] == nid && Met(ws, assocs, j)
    requires LeadsOutHere(ws[j], assocs) || LeadsOut(ws, assocs, j)
    ensures var ws2 := ws1[j := SelectsInput(ws1[j], i)]; Tapping(startNode, ws, ws2, assocs) && MonitorsRise(ws1, ws2)
  {
    assert TappedAt(ws[j], ws1[j]) && Met(ws, assocs, nid);
    TappingUpdate(startNode, ws, ws1, assocs, j, SelectsInput(ws1[j], i));
  }

  // ----- audioTraceAssociationExtra -----

  /** What the extra trace leaves: only tapping; the mixers of input
      associations with a free walk to an output are monitors; from every start
      with such a walk one is open; every beep generator belongs to the pseudo
      association -2. */
  ghost predicate ExtraTraced(startNode: nat, ws: seq<Widget>, ws': seq<Widget>, assocs: seq<Assoc>)
  {
    && Tapping(startNode, ws, ws', assocs) && WidgetsOk(startNode, ws')
    && (forall n :: Live(ws, n) && ws[n].kind == Mixer && BoundTo(ws[n], assocs, In) && ReachesOut(ws, assocs, n, 0) ==>
          ws'[n].monitor)
    && (forall n :: Live(ws, n) && Starts(ws[n], assocs) && ReachesOut(ws, assocs, n, 0) ==> Opened(ws, ws', assocs, n))
    && (forall n :: Live(ws, n) && ws[n].kind == BeepGenerator ==> ws'[n].bindAssoc == -2)
  }

  /** From the starts below i of one kind that supply an output a walk is open. */
  ghost predicate OpenedBelow(ws: seq<Widget>, ws': seq<Widget>, assocs: seq<Assoc>, kind: Kind, i: int)
  {
    forall n :: n < i && Live(ws, n) && ws[n].kind == kind && Starts(ws[n], assocs) && ReachesOut(ws, assocs, n, 0)
      ==> Opened(ws, ws', assocs, n)
  }

  lemma OpenedBelowStays(ws: seq<Widget>, ws1: seq<Widget>, ws2: seq<Widget>, assocs: seq<Assoc>, kind: Kind, i: int)
    requires MonitorsRise(ws1, ws2) && OpenedBelow(ws, ws1, assocs, kind, i)
    ensures OpenedBelow(ws, ws2, assocs, kind, i)
  {
    forall n | n < i && Live(ws, n) && ws[n].kind == kind && Starts(ws[n], assocs) && ReachesOut(ws, assocs, n, 0)
      ensures Opened(ws, ws2, assocs, n)
    {
      OpenedStays(ws, ws1, ws2, assocs, n);
    }
  }

  /** The mixers of input associations below i that supply an output. */
  ghost predicate MonitorsFound(ws: seq<Widget>, ws': seq<Widget>, assocs: seq<Assoc>, i: int)
    requires |ws'| == |ws|
  {
    forall n :: n < i && Live(ws, n) && ws[n].kind == Mixer && BoundTo(ws[n], assocs, In)
                && ReachesOut(ws, assocs, n, 0)
      ==> ws'[n].monitor
  }

  lemma InputMonitorsNext(ws: seq<Widget>, ws1: seq<Widget>, ws2: seq<Widget>, assocs: seq<Assoc>, j: nat)
    requires |ws1| == |ws| && j < |ws| && MonitorsRise(ws1, ws2)
    requires MonitorsFound(ws, ws1, assocs, j) && OpenedBelow(ws, ws1, assocs, Mixer, j)
    requires Live(ws, j) && ws[j].kind == Mixer && BoundTo(ws[j], assocs, In) && ReachesOut(ws, assocs, j, 0) ==>
               ws2[j].monitor && Opened(ws, ws2, assocs, j)
    ensures MonitorsFound(ws, ws2, assocs, j + 1) && OpenedBelow(ws, ws2, assocs, Mixer, j + 1)
  {
    OpenedBelowStays(ws, ws1, ws2, assocs, Mixer, j);
  }

  /** Input monitor: mixers associated with input but supplying an output. */
  method TraceInputMonitors(fg: FunctionGroup, ghost ws: seq<Widget>)
    requires fg.widgets[..] == ws && Tapping(fg.startNode, ws, ws, fg.assocs[..])
    modifies fg.widgets
    ensures Tapping(fg.startNode, ws, fg.widgets[..], fg.assocs[..])
    ensures |ws| == |fg.widgets[..]| && MonitorsFound(ws, fg.widgets[..], fg.assocs[..], |ws|)
    ensures OpenedBelow(ws, fg.widgets[..], fg.assocs[..], Mixer, |ws|)
  {
    ghost var assocs := fg.assocs[..];
    var j := fg.startNode;
    while j < fg.widgets.Length
      invariant fg.startNode <= j <= fg.widgets.Length
      invariant Tapping(fg.startNode, ws, fg.widgets[..], assocs)
      invariant |ws| == |fg.widgets[..]| && MonitorsFound(ws, fg.widgets[..], assocs, j)
      invariant OpenedBelow(ws, fg.widgets[..], assocs, Mixer, j)
    {
      ghost var ws1 := fg.widgets[..];
      assert TappedAt(ws[j], ws1[j]);
      if fg.widgets[j].enable && fg.widgets[j].kind == Mixer
         && !(fg.widgets[j].bindAssoc < 0 || fg.assocs[fg.widgets[j].bindAssoc].dir != In) {
        TraceInputMonitor(fg, j, ws);
      }
      InputMonitorsNext(ws, ws1, fg.widgets[..], assocs, j);
      j := j + 1;
    }
  }

  method TraceInputMonitor(fg: FunctionGroup, j: nat, ghost ws: seq<Widget>)
    requires Tapping(fg.startNode, ws, fg.widgets[..], fg.assocs[..])
    requires j < fg.widgets.Length && Live(ws, j) && ws[j].kind == Mixer && BoundTo(ws[j], fg.assocs[..], In)
    modifies fg.widgets
    ensures Tapping(fg.startNode, ws, fg.widgets[..], fg.assocs[..])
    ensures MonitorsRise(old(fg.widgets[..]), fg.widgets[..])
    ensures ReachesOut(ws, fg.assocs[..], j, 0) ==>
              fg.widgets[j].monitor && Opened(ws, fg.widgets[..], fg.assocs[..], j)
  {
    ghost var before := fg.widgets[..];
    assert MetAt(ws, fg.assocs[..], j, 0) && Met(ws, fg.assocs[..], j);
    var res := AudioTraceToOut(fg, j, 0, ws);
    assert TappedAt(ws[j], fg.widgets[j]);
    if res {
      ghost var between := fg.widgets[..];
      TappingUpdate(fg.startNode, ws, between, fg.assocs[..], j, fg.widgets[j].(monitor := true));
      fg.widgets[j] := fg.widgets[j].(monitor := true);
      assert fg.widgets[..] == between[j := between[j].(monitor := true)];
      RiseTwice(before, between, fg.widgets[..]);
      OpenedStays(ws, between, fg.widgets[..], fg.assocs[..], j);
    }
  }

  /** Other inputs monitor: input pins supplying signal for outputs. */
  method TraceInputPins(fg: FunctionGroup, ghost ws: seq<Widget>)
    requires Tapping(fg.startNode, ws, fg.widgets[..], fg.assocs[..])
    modifies fg.widgets
    ensures Tapping(fg.startNode, ws, fg.widgets[..], fg.assocs[..])
    ensures MonitorsRise(old(fg.widgets[..]), fg.widgets[..])
    ensures OpenedBelow(ws, fg.widgets[..], fg.assocs[..], PinComplex, |ws|)
  {
    ghost var assocs := fg.assocs[..];
    var j := fg.startNode;
    while j < fg.widgets.Length
      invariant fg.startNode <= j <= fg.widgets.Length
      invariant Tapping(fg.startNode, ws, fg.widgets[..], assocs)
      invariant MonitorsRise(old(fg.widgets[..]), fg.widgets[..])
      invariant OpenedBelow(ws, fg.widgets[..], assocs, PinComplex, j)
    {
      ghost var ws1 := fg.widgets[..];
      TraceInputPin(fg, j, ws);
      InputPinsNext(ws, ws1, fg.widgets[..], assocs, j);
      j := j + 1;
    }
  }

  lemma InputPinsNext(ws: seq<Widget>, ws1: seq<Widget>, ws2: seq<Widget>, assocs: seq<Assoc>, j: nat)
    requires MonitorsRise(ws1, ws2) && OpenedBelow(ws, ws1, assocs, PinComplex, j)
    requires Live(ws, j) && ws[j].kind == PinComplex && Starts(ws[j], assocs) && ReachesOut(ws, assocs, j, 0) ==>
               Opened(ws, ws2, assocs, j)
    ensures OpenedBelow(ws, ws2, assocs, PinComplex, j + 1)
  {
    OpenedBelowStays(ws, ws1, ws2, assocs, PinComplex, j);
  }

  method TraceInputPin(fg: FunctionGroup, j: nat, ghost ws: seq<Widget>)
    requires Tapping(fg.startNode, ws, fg.widgets[..], fg.assocs[..]) && j < fg.widgets.Length
    modifies fg.widgets
    ensures Tapping(fg.startNode, ws, fg.widgets[..], fg.assocs[..])
    ensures MonitorsRise(old(fg.widgets[..]), fg.widgets[..])
    ensures Live(ws, j) && ws[j].kind == PinComplex && Starts(ws[j], fg.assocs[..])
            && ReachesOut(ws, fg.assocs[..], j, 0) ==>
              Opened(ws, fg.widgets[..], fg.assocs[..], j)
  {
    assert TappedAt(ws[j], fg.widgets[j]);
    if fg.widgets[j].enable && fg.widgets[j].kind == PinComplex
       && !(fg.widgets[j].bindAssoc < 0 || fg.assocs[fg.widgets[j].bindAssoc].dir != In) {
      assert MetAt(ws, fg.assocs[..], j, 0);
      var res := AudioTraceToOut(fg, j, 0, ws);
    }
  }

  /** The beep generators below i belong to the pseudo association -2. */
  ghost predicate BeepersBound(ws: seq<Widget>, ws': seq<Widget>, i: int)
    requires |ws'| == |ws|
  {
    forall n :: n < i && Live(ws, n) && ws[n].kind == BeepGenerator ==> ws'[n].bindAssoc == -2
  }

  lemma BeepersNext(ws: seq<Widget>, ws1: seq<Widget>, ws2: seq<Widget>, assocs: seq<Assoc>, j: nat)
    requires |ws1| == |ws| && j < |ws| && MonitorsRise(ws1, ws2)
    requires BeepersBound(ws, ws1, j) && OpenedBelow(ws, ws1, assocs, BeepGenerator, j)
    requires Live(ws, j) && ws[j].kind == BeepGenerator ==>
               ws2[j].bindAssoc == -2 && (ReachesOut(ws, assocs, j, 0) ==> Opened(ws, ws2, assocs, j))
    ensures BeepersBound(ws, ws2, j + 1) && OpenedBelow(ws, ws2, assocs, BeepGenerator, j + 1)
  {
    OpenedBelowStays(ws, ws1, ws2, assocs, BeepGenerator, j);
  }

  method TraceBeepers(fg: FunctionGroup, ghost ws: seq<Widget>)
    requires Tapping(fg.startNode, ws, fg.widgets[..], fg.assocs[..])
    modifies fg.widgets
    ensures Tapping(fg.startNode, ws, fg.widgets[..], fg.assocs[..])
    ensures MonitorsRise(old(fg.widgets[..]), fg.widgets[..])
    ensures OpenedBelow(ws, fg.widgets[..], fg.assocs[..], BeepGenerator, |ws|)
    ensures |ws| == |fg.widgets[..]| && BeepersBound(ws, fg.widgets[..], |ws|)
  {
    ghost var assocs := fg.assocs[..];
    var j := fg.startNode;
    while j < fg.widgets.Length
      invariant fg.startNode <= j <= fg.widgets.Length
      invariant Tapping(fg.startNode, ws, fg.widgets[..], assocs)
      invariant MonitorsRise(old(fg.widgets[..]), fg.widgets[..])
      invariant OpenedBelow(ws, fg.widgets[..], assocs, BeepGenerator, j)
      invariant |ws| == |fg.widgets[..]| && BeepersBound(ws, fg.widgets[..], j)
    {
      ghost var ws1 := fg.widgets[..];
      TraceBeeper(fg, j, ws);
      BeepersNext(ws, ws1, fg.widgets[..], assocs, j);
      j := j + 1;
    }
  }

  method TraceBeeper(fg: FunctionGroup, j: nat, ghost ws: seq<Widget>)
    requires Tapping(fg.startNode, ws, fg.widgets[..], fg.assocs[..]) && j < fg.widgets.Length
    modifies fg.widgets
    ensures Tapping(fg.startNode, ws, fg.widgets[..], fg.assocs[..])
    ensures MonitorsRise(old(fg.widgets[..]), fg.widgets[..])
    ensures Live(ws, j) && ws[j].kind == BeepGenerator ==>
              && fg.widgets[j].bindAssoc == -2
              && (ReachesOut(ws, fg.assocs[..], j, 0) ==> Opened(ws, fg.widgets[..], fg.assocs[..], j))
  {
    assert TappedAt(ws[j], fg.widgets[j]);
    if fg.widgets[j].enable && fg.widgets[j].kind == BeepGenerator {
      ghost var before := fg.widgets[..];
      assert MetAt(ws, fg.assocs[..], j, 0);
      var res := AudioTraceToOut(fg, j, 0, ws);
      ghost var between := fg.widgets[..];
      assert TappedAt(ws[j], fg.widgets[j]);
      TappingUpdate(fg.startNode, ws, between, fg.assocs[..], j, fg.widgets[j].(bindAssoc := -2));
      fg.widgets[j] := fg.widgets[j].(bindAssoc := -2);
      assert fg.widgets[..] == between[j := between[j].(bindAssoc := -2)];
      RiseTwice(before, between, fg.widgets[..]);
      if res {
        OpenedStays(ws, between, fg.widgets[..], fg.assocs[..], j);
      }
    }
  }

  /** audioTraceAssociationExtra. */
  method AudioTraceAssociationExtra(fg: FunctionGroup)
    requires fg.ValidWidgets()
    requires forall n :: 0 <= n < fg.widgets.Length ==> -2 <= fg.widgets[n].bindAssoc < fg.assocs.Length
    modifies fg.widgets
    ensures ExtraTraced(fg.startNode, old(fg.widgets[..]), fg.widgets[..], fg.assocs[..])
  {
    ghost var ws, assocs := fg.widgets[..], fg.assocs[..];
    TraceInputMonitors(fg, ws);
    ghost var ws1 := fg.widgets[..];
    TraceInputPins(fg, ws);
    ghost var ws2 := fg.widgets[..];
    TraceBeepers(fg, ws);
    ExtraDone(fg.startNode, ws, ws1, ws2, fg.widgets[..], assocs);
  }

  /** The three loops together. */
  lemma ExtraDone(startNode: nat, ws: seq<Widget>, ws1: seq<Widget>, ws2: seq<Widget>, ws3: seq<Widget>,
                  assocs: seq<Assoc>)
    requires Tapping(startNode, ws, ws3, assocs) && |ws1| == |ws|
    requires MonitorsRise(ws1, ws2) && MonitorsRise(ws2, ws3) && MonitorsFound(ws, ws1, assocs, |ws|)
    requires OpenedBelow(ws, ws1, assocs, Mixer, |ws|) && OpenedBelow(ws, ws2, assocs, PinComplex, |ws|)
    requires OpenedBelow(ws, ws3, assocs, BeepGenerator, |ws|)
    requires BeepersBound(ws, ws3, |ws|)
    ensures ExtraTraced(startNode, ws, ws3, assocs)
  {
    TappedOk(startNode, ws, ws3, assocs);
    RiseTwice(ws1, ws2, ws3);
    OpenedBelowStays(ws, ws1, ws3, assocs, Mixer, |ws|);
    OpenedBelowStays(ws, ws2, ws3, assocs, PinComplex, |ws|);
  }
}
