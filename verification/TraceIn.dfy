/** Tracing an input association: audioTraceAdc explores every way from a pin
    to one ADC, audioTraceAssociationIn looks for an ADC all pins reach. */
module InputTrace {
  import opened HdaGraph
  import opened OutputAssociation

  // ----- The graph as an input trace sees it -----

  /** The widget can be walked through by association a. */
  predicate Open(w: Widget, a: int)
  {
    w.enable && (w.bindAssoc >= 0 ==> w.bindAssoc == a)
  }

  /** What an input trace reads of a widget; binding it to a does not change it. */
  datatype Node = Node(open: bool, kind: Kind, conns: seq<int>, connsenable: seq<bool>)

  function NodeOf(w: Widget, a: int): Node
  {
    Node(Open(w, a), w.kind, w.conns, w.connsenable)
  }

  function View(ws: seq<Widget>, a: int): (g: seq<Node>)
    ensures |g| == |ws|
  {
    seq(|ws|, n requires 0 <= n < |ws| => NodeOf(ws[n], a))
  }

  predicate IsOpen(g: seq<Node>, n: int)
  {
    0 <= n < |g| && g[n].open
  }

  /** Connection i of j is enabled and comes from n. */
  predicate Edge(g: seq<Node>, n: int, j: int, i: int)
  {
    && 0 <= j < |g| && 0 <= i < |g[j].conns| && i < |g[j].connsenable|
    && g[j].connsenable[i] && g[j].conns[i] == n
  }

  /** j has an enabled connection from n. */
  ghost predicate Consumes(g: seq<Node>, n: int, j: int)
  {
    exists i :: Edge(g, n, j, i)
  }

  /** The trace goes on from the widget to its consumers. */
  predicate Forwards(g: seq<Node>, n: int, depth: nat)
  {
    0 <= n < |g| && g[n].kind != AudioInput && (g[n].kind == PinComplex ==> depth == 0)
  }

  // ----- Walks -----

  /** p is a walk of at most MAX_DEPTH hops to the audio input adc, its first
      widget at depth `depth`. */
  ghost predicate IsWalk(g: seq<Node>, p: seq<int>, adc: int, depth: nat)
  {
    && |p| >= 1 && depth <= MAX_DEPTH && IsOpen(g, p[0])
    && if |p| == 1 then
         p[0] == adc && g[adc].kind == AudioInput
       else
         Forwards(g, p[0], depth) && Consumes(g, p[0], p[1]) && IsWalk(g, p[1..], adc, depth + 1)
  }

  /** The trace from n succeeds. */
  ghost predicate Joins(g: seq<Node>, n: int, adc: int, depth: nat)
    decreases MAX_DEPTH + 1 - depth
  {
    && depth <= MAX_DEPTH && IsOpen(g, n)
    && (|| (g[n].kind == AudioInput && n == adc)
        || (Forwards(g, n, depth) && exists j :: Consumes(g, n, j) && Joins(g, j, adc, depth + 1)))
  }

  /** x is met by a successful part of the trace from n. */
  ghost predicate OnWalk(g: seq<Node>, n: int, adc: int, depth: nat, x: int)
    decreases MAX_DEPTH + 1 - depth
  {
    && Joins(g, n, adc, depth)
    && (|| x == n
        || (Forwards(g, n, depth) && exists j :: Consumes(g, n, j) && OnWalk(g, j, adc, depth + 1, x)))
  }

  lemma {:induction false} WalkMeets(g: seq<Node>, p: seq<int>, adc: int, depth: nat, k: nat)
    requires IsWalk(g, p, adc, depth) && k < |p|
    ensures OnWalk(g, p[0], adc, depth, p[k])
    decreases |p|
  {
    if |p| > 1 {
      WalkMeets(g, p[1..], adc, depth + 1, if k == 0 then 0 else k - 1);
      assert p[1..][0] == p[1];
      assert k > 0 ==> p[1..][k - 1] == p[k];
    }
  }

  lemma {:induction false} MeetsWalk(g: seq<Node>, n: int, adc: int, depth: nat, x: int) returns (p: seq<int>)
    requires OnWalk(g, n, adc, depth, x)
    ensures IsWalk(g, p, adc, depth) && p[0] == n && x in p
    decreases MAX_DEPTH + 1 - depth
  {
    if g[n].kind == AudioInput {
      p := [n];
    } else {
      var j, y;
      if x == n {
        j :| Consumes(g, n, j) && Joins(g, j, adc, depth + 1);
        y := j;
      } else {
        j :| Consumes(g, n, j) && OnWalk(g, j, adc, depth + 1, x);
        y := x;
      }
      var rest := MeetsWalk(g, j, adc, depth + 1, y);
      p := [n] + rest;
      assert p[1..] == rest;
    }
  }

  /** The widgets a trace from a pin meets are those on its walks to the ADC. */
  lemma OnWalkIff(g: seq<Node>, n: int, adc: int, depth: nat, x: int)
    ensures OnWalk(g, n, adc, depth, x) <==>
            exists p :: IsWalk(g, p, adc, depth) && p[0] == n && x in p
  {
    if OnWalk(g, n, adc, depth, x) {
      var p := MeetsWalk(g, n, adc, depth, x);
    }
    if p :| IsWalk(g, p, adc, depth) && p[0] == n && x in p {
      var k :| 0 <= k < |p| && p[k] == x;
      WalkMeets(g, p, adc, depth, k);
    }
  }

  ghost function Met(g: seq<Node>, n: int, adc: int, depth: nat): set<int>
  {
    set x | 0 <= x < |g| && OnWalk(g, n, adc, depth, x)
  }

  lemma {:induction false} MetOpen(g: seq<Node>, n: int, adc: int, depth: nat, x: int)
    requires OnWalk(g, n, adc, depth, x)
    ensures IsOpen(g, x)
    decreases MAX_DEPTH + 1 - depth
  {
    if x != n {
      var j :| Consumes(g, n, j) && OnWalk(g, j, adc, depth + 1, x);
      MetOpen(g, j, adc, depth + 1, x);
    }
  }

  // ----- What a trace does to the widgets -----

  /** Widgets whose input is chosen by selconn, as audioTraceAdc tests it. */
  predicate Switching(w: Widget)
  {
    (|w.conns| > 1 && w.kind != Mixer) || w.kind == Selector
  }

  /** w' is w joined to pin s of association a (when `on`).  A switching widget
      without a choice gets one when it is entered (`entered`), and only from
      a widget of `from`. */
  ghost predicate JoinedAt(w: Widget, w': Widget, a: int, s: int, on: bool, entered: bool, from: set<int>)
  {
    if !on then w' == w
    else
      && w' == w.(bindAssoc := a, bindSeqMask := w.bindSeqMask + {s}, traceDir := w.traceDir + {In},
                  selconn := w'.selconn)
      && (if !Switching(w) || w.selconn != -1 then
            w'.selconn == w.selconn
          else
            && (entered ==> w'.selconn != -1)
            && (w'.selconn != -1 ==> Enabled(w, w'.selconn) && w.conns[w'.selconn] in from))
  }

  ghost predicate Joined(ws: seq<Widget>, ws': seq<Widget>, a: int, s: int, on: set<int>, entered: set<int>,
                         from: set<int>)
  {
    && |ws'| == |ws| && entered <= on
    && forall n {:trigger ws[n]} {:trigger ws'[n]} :: 0 <= n < |ws| ==>
         JoinedAt(ws[n], ws'[n], a, s, n in on, n in entered, from)
  }

  lemma JoinedNothing(ws: seq<Widget>, a: int, s: int)
    ensures Joined(ws, ws, a, s, {}, {}, {})
  {
  }

  lemma JoinedTwice(ws: seq<Widget>, ws1: seq<Widget>, ws2: seq<Widget>, a: int, s: int, on1: set<int>,
                    entered1: set<int>, from1: set<int>, on2: set<int>, entered2: set<int>, from2: set<int>)
    requires Joined(ws, ws1, a, s, on1, entered1, from1)
    requires Joined(ws1, ws2, a, s, on2, entered2, from2)
    ensures Joined(ws, ws2, a, s, on1 + on2, entered1 + entered2, from1 + from2)
  {
    forall n | 0 <= n < |ws|
      ensures JoinedAt(ws[n], ws2[n], a, s, n in on1 + on2, n in entered1 + entered2, from1 + from2)
    {
      assert JoinedAt(ws[n], ws1[n], a, s, n in on1, n in entered1, from1);
      assert JoinedAt(ws1[n], ws2[n], a, s, n in on2, n in entered2, from2);
    }
  }

  lemma JoinedView(ws: seq<Widget>, ws': seq<Widget>, a: nat, s: int, on: set<int>, entered: set<int>, from: set<int>)
    requires Joined(ws, ws', a, s, on, entered, from)
    requires forall n :: n in on ==> IsOpen(View(ws, a), n)
    ensures View(ws', a) == View(ws, a)
    ensures AllSameStructure(ws, ws')
  {
    forall n | 0 <= n < |ws|
      ensures NodeOf(ws'[n], a) == NodeOf(ws[n], a) && SameStructure(ws[n], ws'[n])
    {
      assert JoinedAt(ws[n], ws'[n], a, s, n in on, n in entered, from);
      assert n in on ==> View(ws, a)[n].open;
    }
  }

  /** The widgets met through the consumers of n below node j0. */
  ghost function Below(g: seq<Node>, n: int, adc: int, depth: nat, j0: int): set<int>
  {
    set x | 0 <= x < |g| && MetBelow(g, n, adc, depth, j0, x)
  }

  ghost predicate MetBelow(g: seq<Node>, n: int, adc: int, depth: nat, j0: int, x: int)
  {
    exists j :: j < j0 && Consumes(g, n, j) && OnWalk(g, j, adc, depth + 1, x)
  }

  /** Some consumer of n below node j0 joins. */
  ghost predicate SomeJoins(g: seq<Node>, n: int, adc: int, depth: nat, j0: int)
  {
    exists j :: j < j0 && Consumes(g, n, j) && Joins(g, j, adc, depth + 1)
  }

  /** One more consumer. */
  lemma BelowNext(g: seq<Node>, n: int, adc: int, depth: nat, j0: int, next: int)
    requires next == j0 + 1
    ensures Below(g, n, adc, depth, next) ==
            Below(g, n, adc, depth, j0) + if Consumes(g, n, j0) then Met(g, j0, adc, depth + 1) else {}
    ensures SomeJoins(g, n, adc, depth, next) <==>
            SomeJoins(g, n, adc, depth, j0) || (Consumes(g, n, j0) && Joins(g, j0, adc, depth + 1))
  {
    var here := if Consumes(g, n, j0) then Met(g, j0, adc, depth + 1) else {};
    forall x | x in Below(g, n, adc, depth, next) ensures x in Below(g, n, adc, depth, j0) + here {
      var j :| j < next && Consumes(g, n, j) && OnWalk(g, j, adc, depth + 1, x);
      assert j < j0 || j == j0;
    }
  }

  /** All consumers have been traced: what the whole trace from n has met. */
  lemma BelowAll(g: seq<Node>, n: int, adc: int, depth: nat)
    requires IsOpen(g, n) && depth <= MAX_DEPTH && Forwards(g, n, depth)
    ensures Joins(g, n, adc, depth) <==> SomeJoins(g, n, adc, depth, |g|)
    ensures Joins(g, n, adc, depth) ==>
              Met(g, n, adc, depth) == Below(g, n, adc, depth, |g|) + {n}
  {
    if Joins(g, n, adc, depth) {
      var j :| Consumes(g, n, j) && Joins(g, j, adc, depth + 1);
      assert j < |g|;
      forall x | x in Met(g, n, adc, depth) ensures x in Below(g, n, adc, depth, |g|) + {n} {
        if x != n {
          var k :| Consumes(g, n, k) && OnWalk(g, k, adc, depth + 1, x);
          assert k < |g|;
        }
      }
    }
  }

  /** Consumer j of nid has been traced (again) from ws1 and switched to nid. */
  lemma JoinedConsumer(ws0: seq<Widget>, ws1: seq<Widget>, ws2: seq<Widget>, a: int, s: int, met: set<int>, found: bool,
                       nid: int, j: nat, i: nat)
    requires if found then Joined(ws0, ws1, a, s, met, met, met + {nid}) else ws1 == ws0
    requires Joined(ws1, ws2, a, s, met, met - {j}, met)
    requires j < |ws2| && j in met && Enabled(ws2[j], i) && ws2[j].conns[i] == nid
    ensures var w := ws2[j];
            Joined(ws0, ws2[j := if Switching(w) && w.selconn == -1 then w.(selconn := i) else w],
                   a, s, met, met, met + {nid})
  {
    var w := ws2[j];
    var ws3 := ws2[j := if Switching(w) && w.selconn == -1 then w.(selconn := i) else w];
    forall n | 0 <= n < |ws1| ensures JoinedAt(ws1[n], ws3[n], a, s, n in met, n in met, met + {nid}) {
      assert JoinedAt(ws1[n], ws2[n], a, s, n in met, n in met - {j}, met);
    }
    if found {
      JoinedTwice(ws0, ws1, ws3, a, s, met, met, met + {nid}, met, met, met + {nid});
      assert met + met == met && met + {nid} + (met + {nid}) == met + {nid};
    }
  }

  function BoundIn(ws: seq<Widget>, n: nat, a: int, s: int): (ws': seq<Widget>)
    requires n < |ws|
    ensures |ws'| == |ws|
  {
    ws[n := ws[n].(bindAssoc := a, bindSeqMask := ws[n].bindSeqMask + {s}, traceDir := ws[n].traceDir + {In})]
  }

  /** Finally nid itself is bound. */
  lemma JoinedRoot(ws: seq<Widget>, ws1: seq<Widget>, a: int, s: int, below: set<int>, nid: nat)
    requires nid < |ws1| && Joined(ws, ws1, a, s, below, below, below + {nid})
    ensures Joined(ws, BoundIn(ws1, nid, a, s), a, s, below + {nid}, below + {nid} - {nid}, below + {nid})
  {
    var ws2 := BoundIn(ws1, nid, a, s);
    forall n | 0 <= n < |ws|
      ensures JoinedAt(ws[n], ws2[n], a, s, n in below + {nid}, n in below + {nid} - {nid}, below + {nid})
    {
      assert JoinedAt(ws[n], ws1[n], a, s, n in below, n in below, below + {nid});
      assert ws[n].bindSeqMask + {s} + {s} == ws[n].bindSeqMask + {s};
      assert ws[n].traceDir + {In} + {In} == ws[n].traceDir + {In};
    }
  }

  // ----- The walk the selections follow -----

  /** Hop k of p, if it enters a switching widget, is the one it has chosen. */
  ghost predicate SteeredHop(ws: seq<Widget>, p: seq<int>, k: int)
  {
    0 < k < |p| && 0 <= p[k] < |ws| && Switching(ws[p[k]]) ==>
      Enabled(ws[p[k]], ws[p[k]].selconn) && ws[p[k]].conns[ws[p[k]].selconn] == p[k - 1]
  }

  ghost predicate Steered(ws: seq<Widget>, p: seq<int>)
  {
    forall k :: 0 < k < |p| ==> SteeredHop(ws, p, k)
  }

  /** Some walk of the graph g from n to the ADC follows the selections in ws. */
  ghost predicate SteeredFrom(g: seq<Node>, ws: seq<Widget>, n: int, adc: int, depth: nat)
  {
    exists p :: IsWalk(g, p, adc, depth) && p[0] == n && Steered(ws, p)
  }

  /** The same of a walk that comes from n and goes on from its consumer j. */
  ghost predicate SteeredVia(g: seq<Node>, ws: seq<Widget>, n: int, j: int, adc: int, depth: nat)
  {
    exists p :: IsWalk(g, p, adc, depth + 1) && p[0] == j && Steered(ws, [n] + p)
  }

  /** No widget of the set has a choice yet. */
  ghost predicate Unchosen(ws: seq<Widget>, xs: set<int>)
  {
    forall x :: x in xs && 0 <= x < |ws| ==> ws[x].selconn == -1
  }

  lemma SteeredKept(ws: seq<Widget>, ws': seq<Widget>, a: int, s: int, on: set<int>, entered: set<int>, from: set<int>,
                    p: seq<int>)
    requires Joined(ws, ws', a, s, on, entered, from) && Steered(ws, p)
    ensures Steered(ws', p)
  {
    forall k | 0 < k < |p| ensures SteeredHop(ws', p, k) {
      var x := p[k];
      assert SteeredHop(ws, p, k);
      if 0 <= x < |ws| {
        assert JoinedAt(ws[x], ws'[x], a, s, x in on, x in entered, from);
      }
    }
  }

  lemma SteeredSame(ws: seq<Widget>, ws': seq<Widget>, p: seq<int>)
    requires |ws'| == |ws| && Steered(ws, p)
    requires forall n :: 0 <= n < |ws| && Switching(ws[n]) && ws[n].selconn != -1 ==> ws'[n].selconn == ws[n].selconn
    requires forall n :: 0 <= n < |ws| ==> ws'[n].kind == ws[n].kind && ws'[n].conns == ws[n].conns
                                           && ws'[n].connsenable == ws[n].connsenable
    ensures Steered(ws', p)
  {
    forall k | 0 < k < |p| ensures SteeredHop(ws', p, k) {
      assert SteeredHop(ws, p, k);
    }
  }

  /** Downstream of a widget that is no pin the rank only rises. */
  lemma {:induction false} MetAbove(ws: seq<Widget>, rank: seq<nat>, a: int, n: int, adc: int, depth: nat, x: int)
    requires Ranks(ws, rank) && depth > 0 && OnWalk(View(ws, a), n, adc, depth, x)
    ensures 0 <= x < |ws| && 0 <= n < |ws| && ws[x].kind != PinComplex && rank[n] <= rank[x]
    decreases MAX_DEPTH + 1 - depth
  {
    if x != n {
      var g := View(ws, a);
      var j :| Consumes(g, n, j) && OnWalk(g, j, adc, depth + 1, x);
      MetAbove(ws, rank, a, j, adc, depth + 1, x);
      var i :| Edge(g, n, j, i);
      assert Enabled(ws[j], i);
    }
  }

  /** No widget is fed from its own downstream. */
  lemma NotFromBelow(ws: seq<Widget>, a: int, j: int, adc: int, depth: nat, i: int)
    requires Acyclic(ws) && depth > 0 && 0 <= j < |ws| && Enabled(ws[j], i)
    ensures ws[j].conns[i] !in Met(View(ws, a), j, adc, depth)
  {
    var rank, x :| Ranks(ws, rank) && x == ws[j].conns[i];
    if x in Met(View(ws, a), j, adc, depth) {
      MetAbove(ws, rank, a, j, adc, depth, x);
    }
  }

  /** Nor does a trace come back to where it started. */
  lemma NotBelow(ws: seq<Widget>, a: int, n: int, j: int, adc: int, depth: nat)
    requires Acyclic(ws) && Consumes(View(ws, a), n, j) && Forwards(View(ws, a), n, depth)
    ensures n !in Met(View(ws, a), j, adc, depth + 1)
  {
    var rank :| Ranks(ws, rank);
    var i :| Edge(View(ws, a), n, j, i);
    assert Enabled(ws[j], i);
    if n in Met(View(ws, a), j, adc, depth + 1) {
      MetAbove(ws, rank, a, j, adc, depth + 1, n);
    }
  }

  /** What audioTraceAdc leaves: on success every widget on a walk from nid to
      the ADC, and no other, has joined the pin.  Where nothing had been chosen
      and the graph has no cycle, the choices lead along one of the walks. */
  ghost predicate AdcTraced(ws: seq<Widget>, a: nat, s: int, nid: int, only: int, depth: nat, res: bool,
                            ws': seq<Widget>)
  {
    var g := View(ws, a);
    && res == Joins(g, nid, only, depth)
    && if res then
         var met := Met(g, nid, only, depth);
         && Joined(ws, ws', a, s, met, met - {nid}, met)
         && (Acyclic(ws) && Unchosen(ws, met - {nid}) ==> SteeredFrom(g, ws', nid, only, depth))
       else
         ws' == ws
  }

  /** audioTraceAdc: traces from nid to every consumer. */
  method AudioTraceAdc(fg: FunctionGroup, assocNum: nat, s: nat, nid: int, only: int, depth: nat) returns (res: bool)
    requires fg.ValidWidgets()
    modifies fg.widgets
    ensures fg.ValidWidgets()
    ensures AdcTraced(old(fg.widgets[..]), assocNum, s, nid, only, depth, res, fg.widgets[..])
    decreases MAX_DEPTH + 1 - depth, 1
  {
    ghost var ws := fg.widgets[..];
    ghost var g := View(ws, assocNum);
    res := false;
    if depth > MAX_DEPTH || !(fg.startNode <= nid < fg.widgets.Length) || !fg.widgets[nid].enable
       || (fg.widgets[nid].bindAssoc >= 0 && fg.widgets[nid].bindAssoc != assocNum) {
      return;
    }
    assert IsOpen(g, nid);
    ghost var below := {};
    if fg.widgets[nid].kind == AudioInput {
      res := only == nid;
      JoinedNothing(ws, assocNum, s);
      MetAdc(g, nid, only, depth);
    } else if !(fg.widgets[nid].kind == PinComplex && depth > 0) {
      res := TraceConsumers(fg, assocNum, s, nid, only, depth);
      below := Below(g, nid, only, depth, |g|);
      BelowAll(g, nid, only, depth);
    }
    if res {
      ghost var ws1 := fg.widgets[..];
      BindIn(fg, assocNum, s, nid, ws, below);
      if Acyclic(ws) && Unchosen(ws, Met(g, nid, only, depth) - {nid}) {
        SteeredRoot(ws, ws1, fg.widgets[..], assocNum, nid, s, only, depth);
      }
    }
  }

  /** Nothing is chosen behind the consumers of n. */
  lemma UnchosenBelow(ws: seq<Widget>, a: nat, n: int, adc: int, depth: nat, j: int)
    requires depth <= MAX_DEPTH && IsOpen(View(ws, a), n) && Forwards(View(ws, a), n, depth) && Acyclic(ws)
    requires Unchosen(ws, Met(View(ws, a), n, adc, depth) - {n}) && Consumes(View(ws, a), n, j)
    ensures Unchosen(ws, Met(View(ws, a), j, adc, depth + 1))
  {
    var g := View(ws, a);
    NotBelow(ws, a, n, j, adc, depth);
    forall x | x in Met(g, j, adc, depth + 1) ensures x in Met(g, n, adc, depth) {
      JoinsWhereMet(g, j, adc, depth + 1, x);
    }
  }

  /** A walk from n, by its first consumer. */
  lemma SteeredOn(ws: seq<Widget>, ws1: seq<Widget>, ws2: seq<Widget>, a: nat, n: int, j: int, s: int, adc: int,
                  depth: nat)
    requires depth <= MAX_DEPTH && IsOpen(View(ws, a), n) && 0 <= n < |ws1| == |ws| && ws2 == BoundIn(ws1, n, a, s)
    requires Forwards(View(ws, a), n, depth) && Consumes(View(ws, a), n, j)
    requires SteeredVia(View(ws, a), ws1, n, j, adc, depth)
    ensures SteeredFrom(View(ws, a), ws2, n, adc, depth)
  {
    var g := View(ws, a);
    var p :| IsWalk(g, p, adc, depth + 1) && p[0] == j && Steered(ws1, [n] + p);
    assert ([n] + p)[1..] == p;
    assert IsWalk(g, [n] + p, adc, depth);
    SteeredSame(ws1, ws2, [n] + p);
  }

  /** The walk that starts at nid. */
  lemma SteeredRoot(ws: seq<Widget>, ws1: seq<Widget>, ws2: seq<Widget>, a: nat, n: nat, s: int, adc: int, depth: nat)
    requires depth <= MAX_DEPTH && IsOpen(View(ws, a), n) && |ws1| == |ws| && ws2 == BoundIn(ws1, n, a, s)
    requires Acyclic(ws) && Unchosen(ws, Met(View(ws, a), n, adc, depth) - {n})
    requires if ws[n].kind == AudioInput then n == adc
             else Forwards(View(ws, a), n, depth) && SteeredBelow(ws, ws1, a, n, adc, depth, |ws|)
                  && SomeJoins(View(ws, a), n, adc, depth, |ws|)
    ensures SteeredFrom(View(ws, a), ws2, n, adc, depth)
  {
    var g := View(ws, a);
    if ws[n].kind == AudioInput {
      assert IsWalk(g, [n], adc, depth) && Steered(ws2, [n]);
    } else {
      assert AllUnchosen(ws, a, n, adc, depth) by {
        forall j | Consumes(g, n, j) ensures Unchosen(ws, Met(g, j, adc, depth + 1)) {
          UnchosenBelow(ws, a, n, adc, depth, j);
        }
      }
      var j :| j < |ws| && Consumes(g, n, j) && SteeredVia(g, ws1, n, j, adc, depth);
      SteeredOn(ws, ws1, ws2, a, n, j, s, adc, depth);
    }
  }

  lemma JoinsWhereMet(g: seq<Node>, n: int, adc: int, depth: nat, x: int)
    requires OnWalk(g, n, adc, depth, x)
    ensures Joins(g, n, adc, depth)
  {
  }

  lemma MetAdc(g: seq<Node>, n: int, adc: int, depth: nat)
    requires IsOpen(g, n) && depth <= MAX_DEPTH && g[n].kind == AudioInput
    ensures Joins(g, n, adc, depth) == (n == adc)
    ensures n == adc ==> Met(g, n, adc, depth) == {n}
  {
  }

  method BindIn(fg: FunctionGroup, assocNum: nat, s: nat, nid: nat, ghost ws: seq<Widget>, ghost below: set<int>)
    requires fg.ValidWidgets() && nid < fg.widgets.Length
    requires Joined(ws, fg.widgets[..], assocNum, s, below, below, below + {nid})
    modifies fg.widgets
    ensures fg.ValidWidgets()
    ensures Joined(ws, fg.widgets[..], assocNum, s, below + {nid}, below + {nid} - {nid}, below + {nid})
    ensures fg.widgets[..] == BoundIn(old(fg.widgets[..]), nid, assocNum, s)
  {
    ghost var ws1 := fg.widgets[..];
    JoinedRoot(ws, ws1, assocNum, s, below, nid);
    fg.widgets[nid] := fg.widgets[nid].(
      traceDir := fg.widgets[nid].traceDir + {In},
      bindAssoc := assocNum,
      bindSeqMask := fg.widgets[nid].bindSeqMask + {s});
    SameStructureOk(fg.startNode, ws1, fg.widgets[..]);
  }

  /** Nothing is chosen behind any consumer of n. */
  ghost predicate AllUnchosen(ws: seq<Widget>, a: nat, n: int, adc: int, depth: nat)
  {
    forall j :: Consumes(View(ws, a), n, j) ==> Unchosen(ws, Met(View(ws, a), j, adc, depth + 1))
  }

  /** Where nothing had been chosen, the choices lead along a walk from n through
      a consumer below node j0, if any of them joins. */
  ghost predicate SteeredBelow(ws: seq<Widget>, ws': seq<Widget>, a: nat, n: int, adc: int, depth: nat, j0: int)
  {
    var g := View(ws, a);
    Acyclic(ws) && AllUnchosen(ws, a, n, adc, depth) && SomeJoins(g, n, adc, depth, j0) ==>
      exists j :: j < j0 && Consumes(g, n, j) && SteeredVia(g, ws', n, j, adc, depth)
  }

  /** The trace has gone through the consumers of n below node j0. */
  ghost predicate JoinedBelow(ws: seq<Widget>, ws': seq<Widget>, a: nat, s: int, n: int, adc: int, depth: nat, j0: int,
                              res: bool)
  {
    var below := Below(View(ws, a), n, adc, depth, j0);
    && Joined(ws, ws', a, s, below, below, below + {n})
    && (res <==> SomeJoins(View(ws, a), n, adc, depth, j0))
    && (!res ==> ws' == ws)
    && SteeredBelow(ws, ws', a, n, adc, depth, j0)
  }

  lemma JoinedBelowStart(ws: seq<Widget>, a: nat, s: int, n: int, adc: int, depth: nat, j0: nat)
    requires WidgetsOk(j0, ws)
    ensures JoinedBelow(ws, ws, a, s, n, adc, depth, j0, false)
  {
    assert Below(View(ws, a), n, adc, depth, j0) == {};
  }

  lemma JoinedBelowView(ws: seq<Widget>, ws': seq<Widget>, a: nat, s: int, n: int, adc: int, depth: nat, j0: int,
                        res: bool)
    requires JoinedBelow(ws, ws', a, s, n, adc, depth, j0, res)
    ensures View(ws', a) == View(ws, a)
  {
    var below := Below(View(ws, a), n, adc, depth, j0);
    BelowOpen(View(ws, a), n, adc, depth, j0);
    JoinedView(ws, ws', a, s, below, below, below + {n});
  }

  /** The loop of audioTraceAdc over the widgets that may consume nid. */
  method TraceConsumers(fg: FunctionGroup, assocNum: nat, s: nat, nid: nat, only: int, depth: nat) returns (res: bool)
    requires fg.ValidWidgets() && depth <= MAX_DEPTH && nid < fg.widgets.Length
    modifies fg.widgets
    ensures fg.ValidWidgets()
    ensures JoinedBelow(old(fg.widgets[..]), fg.widgets[..], assocNum, s, nid, only, depth, fg.widgets.Length, res)
    decreases MAX_DEPTH + 1 - depth, 0
  {
    ghost var ws := fg.widgets[..];
    res := false;
    JoinedBelowStart(ws, assocNum, s, nid, only, depth, fg.startNode);
    var j := fg.startNode;
    while j < fg.widgets.Length
      invariant fg.startNode <= j <= fg.widgets.Length
      invariant fg.ValidWidgets()
      invariant JoinedBelow(ws, fg.widgets[..], assocNum, s, nid, only, depth, j, res)
    {
      ghost var ws1 := fg.widgets[..];
      JoinedBelowView(ws, ws1, assocNum, s, nid, only, depth, j, res);
      var found := false;
      if fg.widgets[j].enable {
        found := TraceConsumer(fg, assocNum, s, nid, j, only, depth);
      }
      ghost var k, before := j, res;
      res := res || found;
      j := j + 1;
      BelowStep(ws, ws1, fg.widgets[..], assocNum, s, nid, only, depth, k, j, before, found, res);
    }
    assert j == fg.widgets.Length;
  }

  lemma BelowStep(ws: seq<Widget>, ws1: seq<Widget>, ws2: seq<Widget>, a: nat, s: int, n: int, adc: int, depth: nat,
                  j: nat, next: nat, res: bool, found: bool, res': bool)
    requires j < |ws| && next == j + 1 && res' == (res || found)
    requires JoinedBelow(ws, ws1, a, s, n, adc, depth, j, res)
    requires found == (Consumes(View(ws, a), n, j) && Joins(View(ws, a), j, adc, depth + 1))
    requires View(ws1, a) == View(ws, a) && ConsumerTraced(ws1, ws2, a, s, n, j, adc, depth, found)
    ensures JoinedBelow(ws, ws2, a, s, n, adc, depth, next, res')
  {
    var g := View(ws, a);
    BelowSteered(ws, ws1, ws2, a, s, n, adc, depth, j, next, res, found);
    var below := Below(g, n, adc, depth, j);
    var met := Met(g, j, adc, depth + 1);
    BelowNext(g, n, adc, depth, j, next);
    if found {
      JoinedTwice(ws, ws1, ws2, a, s, below, below, below + {n}, met, met, met + {n});
      assert below + met + {n} == below + {n} + (met + {n});
    } else {
      assert below + (if Consumes(g, n, j) then met else {}) == below;
    }
  }

  lemma BelowSteered(ws: seq<Widget>, ws1: seq<Widget>, ws2: seq<Widget>, a: nat, s: int, n: int, adc: int, depth: nat,
                     j: nat, next: nat, res: bool, found: bool)
    requires j < |ws| && next == j + 1 && (res <==> SomeJoins(View(ws, a), n, adc, depth, j))
    requires SteeredBelow(ws, ws1, a, n, adc, depth, j)
    requires found == (Consumes(View(ws, a), n, j) && Joins(View(ws, a), j, adc, depth + 1))
    requires View(ws1, a) == View(ws, a) && ConsumerTraced(ws1, ws2, a, s, n, j, adc, depth, found)
    requires !res ==> ws1 == ws
    ensures SteeredBelow(ws, ws2, a, n, adc, depth, next)
  {
    var g := View(ws, a);
    var met := Met(g, j, adc, depth + 1);
    if Acyclic(ws) && AllUnchosen(ws, a, n, adc, depth) && SomeJoins(g, n, adc, depth, next) {
      if res {
        var k :| k < j && Consumes(g, n, k) && SteeredVia(g, ws1, n, k, adc, depth);
        var p :| IsWalk(g, p, adc, depth + 1) && p[0] == k && Steered(ws1, [n] + p);
        if found {
          SteeredKept(ws1, ws2, a, s, met, met, met + {n}, [n] + p);
        }
        assert SteeredVia(g, ws2, n, k, adc, depth);
      } else {
        assert found;
      }
    }
  }

  lemma BelowOpen(g: seq<Node>, n: int, adc: int, depth: nat, j0: int)
    ensures forall x :: x in Below(g, n, adc, depth, j0) ==> IsOpen(g, x)
  {
    forall x | x in Below(g, n, adc, depth, j0) ensures IsOpen(g, x) {
      var j :| j < j0 && Consumes(g, n, j) && OnWalk(g, j, adc, depth + 1, x);
      MetOpen(g, j, adc, depth + 1, x);
    }
  }

  lemma MetAllOpen(g: seq<Node>, n: int, adc: int, depth: nat)
    ensures forall x :: x in Met(g, n, adc, depth) ==> IsOpen(g, x)
  {
    forall x | x in Met(g, n, adc, depth) ensures IsOpen(g, x) {
      MetOpen(g, n, adc, depth, x);
    }
  }

  /** Consumer j of n has been traced, if `found`, and switched to n. */
  ghost predicate ConsumerTraced(ws: seq<Widget>, ws': seq<Widget>, a: nat, s: int, n: int, j: int, adc: int,
                                 depth: nat, found: bool)
  {
    var met := Met(View(ws, a), j, adc, depth + 1);
    if found then
      && Joined(ws, ws', a, s, met, met, met + {n})
      && (Acyclic(ws) && Unchosen(ws, met) ==> SteeredVia(View(ws, a), ws', n, j, adc, depth))
    else
      ws' == ws
  }

  /** The loop of audioTraceAdc over the connections of widget j. */
  method TraceConsumer(fg: FunctionGroup, assocNum: nat, s: nat, nid: nat, j: nat, only: int, depth: nat)
    returns (found: bool)
    requires fg.ValidWidgets() && depth <= MAX_DEPTH && nid < fg.widgets.Length
    requires fg.startNode <= j < fg.widgets.Length
    modifies fg.widgets
    ensures fg.ValidWidgets()
    ensures var g := View(old(fg.widgets[..]), assocNum);
            found == (Consumes(g, nid, j) && Joins(g, j, only, depth + 1))
    ensures ConsumerTraced(old(fg.widgets[..]), fg.widgets[..], assocNum, s, nid, j, only, depth, found)
    decreases MAX_DEPTH + 1 - depth, 0, 1
  {
    ghost var ws := fg.widgets[..];
    ghost var g := View(ws, assocNum);
    found := false;
    var conns, connsenable := fg.widgets[j].conns, fg.widgets[j].connsenable;
    var i := 0;
    while i < |conns|
      invariant 0 <= i <= |conns|
      invariant fg.ValidWidgets()
      invariant found == exists k :: 0 <= k < i && Edge(g, nid, j, k) && Joins(g, j, only, depth + 1)
      invariant ConsumerTraced(ws, fg.widgets[..], assocNum, s, nid, j, only, depth, found)
    {
      if connsenable[i] && conns[i] == nid {
        assert Edge(g, nid, j, i);
        var ret := TraceEdge(fg, assocNum, s, nid, j, i, only, depth, ws, found);
        found := found || ret;
      }
      i := i + 1;
    }
  }

  /** Connection i of widget j comes from nid: trace j, and switch it to i. */
  method TraceEdge(fg: FunctionGroup, assocNum: nat, s: nat, nid: nat, j: nat, i: nat, only: int, depth: nat,
                   ghost ws: seq<Widget>, ghost found: bool)
    returns (ret: bool)
    requires fg.ValidWidgets() && depth <= MAX_DEPTH && j < fg.widgets.Length == |ws|
    requires Edge(View(ws, assocNum), nid, j, i) && (found ==> Joins(View(ws, assocNum), j, only, depth + 1))
    requires ConsumerTraced(ws, fg.widgets[..], assocNum, s, nid, j, only, depth, found)
    modifies fg.widgets
    ensures fg.ValidWidgets()
    ensures ret == Joins(View(ws, assocNum), j, only, depth + 1)
    ensures ConsumerTraced(ws, fg.widgets[..], assocNum, s, nid, j, only, depth, found || ret)
    decreases MAX_DEPTH + 1 - depth, 0, 0
  {
    ghost var ws1 := fg.widgets[..];
    ghost var met := Met(View(ws, assocNum), j, only, depth + 1);
    ConsumerView(ws, ws1, assocNum, s, nid, j, only, depth, found);
    ret := AudioTraceAdc(fg, assocNum, s, j, only, depth + 1);
    if ret {
      ghost var ws2 := fg.widgets[..];
      SwitchTo(fg, assocNum, s, nid, j, i, ws, ws1, met, found);
      if Acyclic(ws) && Unchosen(ws, met) {
        SwitchedVia(ws, ws1, ws2, assocNum, s, nid, j, i, only, depth, found);
      }
    }
  }

  lemma ConsumerView(ws: seq<Widget>, ws1: seq<Widget>, a: nat, s: int, n: int, j: int, adc: int, depth: nat,
                     found: bool)
    requires ConsumerTraced(ws, ws1, a, s, n, j, adc, depth, found)
    ensures View(ws1, a) == View(ws, a) && AllSameStructure(ws, ws1)
  {
    if found {
      var met := Met(View(ws, a), j, adc, depth + 1);
      MetAllOpen(View(ws, a), j, adc, depth + 1);
      JoinedView(ws, ws1, a, s, met, met, met + {n});
    }
  }

  /** Widget j switched to its connection i, if it has no choice yet. */
  function Switched(ws: seq<Widget>, j: nat, i: int): (ws': seq<Widget>)
    requires j < |ws|
    ensures |ws'| == |ws|
  {
    ws[j := if Switching(ws[j]) && ws[j].selconn == -1 then ws[j].(selconn := i) else ws[j]]
  }

  /** Consumer j of n has been traced and switched to n. */
  lemma SwitchedVia(ws: seq<Widget>, ws1: seq<Widget>, ws2: seq<Widget>, a: nat, s: int, n: int, j: nat, i: nat,
                    adc: int, depth: nat, found: bool)
    requires var met := Met(View(ws, a), j, adc, depth + 1);
             && Acyclic(ws) && Unchosen(ws, met) && j in met
             && (if found then SteeredVia(View(ws, a), ws1, n, j, adc, depth) else ws1 == ws)
             && View(ws1, a) == View(ws, a) && AdcTraced(ws1, a, s, j, adc, depth + 1, true, ws2)
    requires j < |ws2| == |ws| && Edge(View(ws, a), n, j, i)
    ensures SteeredVia(View(ws, a), Switched(ws2, j, i), n, j, adc, depth)
  {
    var g, ws3 := View(ws, a), Switched(ws2, j, i);
    var met := Met(g, j, adc, depth + 1);
    assert JoinedAt(ws1[j], ws2[j], a, s, true, false, met);
    if found {
      var p :| IsWalk(g, p, adc, depth + 1) && p[0] == j && Steered(ws1, [n] + p);
      SteeredKept(ws1, ws2, a, s, met, met - {j}, met, [n] + p);
      SteeredSame(ws2, ws3, [n] + p);
    } else {
      var p :| IsWalk(g, p, adc, depth + 1) && p[0] == j && Steered(ws2, p);
      StillUnchosen(ws, ws2, a, s, j, adc, depth + 1);
      SteeredSwitch(ws2, p, n, j, i);
    }
  }

  /** The trace from j has not made j's own choice. */
  lemma StillUnchosen(ws: seq<Widget>, ws2: seq<Widget>, a: nat, s: int, j: nat, adc: int, depth: nat)
    requires depth > 0 && AdcTraced(ws, a, s, j, adc, depth, true, ws2) && Acyclic(ws)
    requires j < |ws| && ws[j].selconn == -1 && j in Met(View(ws, a), j, adc, depth)
    ensures ws2[j].selconn == -1
  {
    var met := Met(View(ws, a), j, adc, depth);
    assert JoinedAt(ws[j], ws2[j], a, s, true, false, met);
    if ws2[j].selconn != -1 {
      NotFromBelow(ws, a, j, adc, depth, ws2[j].selconn);
    }
  }

  lemma SteeredSwitch(ws: seq<Widget>, p: seq<int>, n: int, j: nat, i: nat)
    requires j < |ws| && |p| >= 1 && p[0] == j && Steered(ws, p) && ws[j].selconn == -1
    requires Enabled(ws[j], i) && ws[j].conns[i] == n
    ensures Steered(Switched(ws, j, i), [n] + p)
  {
    var ws3, q := Switched(ws, j, i), [n] + p;
    forall k | 0 < k < |q| ensures SteeredHop(ws3, q, k) {
      assert q[k] == p[k - 1] && (k > 1 ==> q[k - 1] == p[k - 2] && SteeredHop(ws, p, k - 1));
    }
  }

  method SwitchTo(fg: FunctionGroup, assocNum: nat, s: nat, nid: nat, j: nat, i: nat, ghost ws: seq<Widget>,
                  ghost ws1: seq<Widget>, ghost met: set<int>, ghost found: bool)
    requires fg.ValidWidgets() && j < fg.widgets.Length && j in met
    requires if found then Joined(ws, ws1, assocNum, s, met, met, met + {nid}) else ws1 == ws
    requires Joined(ws1, fg.widgets[..], assocNum, s, met, met - {j}, met)
    requires Enabled(fg.widgets[j], i) && fg.widgets[j].conns[i] == nid
    modifies fg.widgets
    ensures fg.ValidWidgets()
    ensures Joined(ws, fg.widgets[..], assocNum, s, met, met, met + {nid})
    ensures fg.widgets[..] == Switched(old(fg.widgets[..]), j, i)
  {
    ghost var ws2 := fg.widgets[..];
    JoinedConsumer(ws, ws1, ws2, assocNum, s, met, found, nid, j, i);
    if Switching(fg.widgets[j]) && fg.widgets[j].selconn == -1 {
      fg.widgets[j] := fg.widgets[j].(selconn := i);
    }
    SameStructureOk(fg.startNode, ws2, fg.widgets[..]);
  }

  // ----- audioTraceAssociationIn -----

  /** The pins below i with a walk to the ADC through x. */
  ghost function PinsThrough(g: seq<Node>, pins: seq<int>, adc: int, i: nat, x: int): set<int>
    requires i <= |pins|
  {
    set k | 0 <= k < i && pins[k] != 0 && OnWalk(g, pins[k], adc, 0, x)
  }

  /** Some pin below i has a walk through x. */
  ghost predicate Passed(g: seq<Node>, pins: seq<int>, adc: int, i: nat, x: int)
    requires i <= |pins|
  {
    exists k :: 0 <= k < i && pins[k] != 0 && OnWalk(g, pins[k], adc, 0, x)
  }

  /** Some walk from a pin below i enters x. */
  ghost predicate Entered(g: seq<Node>, pins: seq<int>, adc: int, i: nat, x: int)
    requires i <= |pins|
  {
    exists k :: 0 <= k < i && pins[k] != 0 && x != pins[k] && OnWalk(g, pins[k], adc, 0, x)
  }

  /** w' is w joined to the pins K of association a. */
  ghost predicate ThroughAt(g: seq<Node>, pins: seq<int>, adc: int, i: nat, w: Widget, w': Widget, a: int, x: int)
    requires i <= |pins|
  {
    if !Passed(g, pins, adc, i, x) then w' == w
    else
      && w' == w.(bindAssoc := a, bindSeqMask := w.bindSeqMask + PinsThrough(g, pins, adc, i, x),
                  traceDir := w.traceDir + {In}, selconn := w'.selconn)
      && (if !Switching(w) || w.selconn != -1 then
            w'.selconn == w.selconn
          else
            && (Entered(g, pins, adc, i, x) ==> w'.selconn != -1)
            && (w'.selconn != -1 ==>
                  Enabled(w, w'.selconn) && Passed(g, pins, adc, i, w.conns[w'.selconn])))
  }

  /** The first present pin, if it is below i, has a walk that follows the
      selections, unless some were preset or the graph has a cycle. */
  ghost predicate FirstSteered(ws: seq<Widget>, ws': seq<Widget>, a: nat, pins: seq<int>, adc: int, i: nat)
    requires i <= |pins|
  {
    forall k :: 0 <= k < i && pins[k] != 0 && (forall m :: 0 <= m < k ==> pins[m] == 0)
                && Acyclic(ws) && Unchosen(ws, Met(View(ws, a), pins[k], adc, 0) - {pins[k]}) ==>
      SteeredFrom(View(ws, a), ws', pins[k], adc, 0)
  }

  /** The pins below i have been traced to the ADC. */
  ghost predicate PinsJoined(ws: seq<Widget>, ws': seq<Widget>, a: nat, pins: seq<int>, adc: int, i: nat)
    requires i <= |pins|
  {
    && |ws'| == |ws|
    && (forall k :: 0 <= k < i && pins[k] != 0 ==> Joins(View(ws, a), pins[k], adc, 0))
    && forall x :: 0 <= x < |ws| ==> ThroughAt(View(ws, a), pins, adc, i, ws[x], ws'[x], a, x)
  }

  lemma PinsJoinedStart(ws: seq<Widget>, a: nat, pins: seq<int>, adc: int)
    ensures PinsJoined(ws, ws, a, pins, adc, 0)
  {
  }

  lemma ThroughNext(g: seq<Node>, pins: seq<int>, adc: int, i: nat, next: nat, x: int)
    requires i < |pins| && next == i + 1
    ensures PinsThrough(g, pins, adc, next, x) ==
            PinsThrough(g, pins, adc, i, x) + if pins[i] != 0 && OnWalk(g, pins[i], adc, 0, x) then {i} else {}
    ensures Passed(g, pins, adc, next, x) <==>
            Passed(g, pins, adc, i, x) || (pins[i] != 0 && OnWalk(g, pins[i], adc, 0, x))
    ensures Entered(g, pins, adc, next, x) <==>
            Entered(g, pins, adc, i, x) || (pins[i] != 0 && x != pins[i] && OnWalk(g, pins[i], adc, 0, x))
  {
  }

  lemma PinsJoinedSkip(ws: seq<Widget>, ws1: seq<Widget>, a: nat, pins: seq<int>, adc: int, i: nat, next: nat)
    requires i < |pins| && next == i + 1 && pins[i] == 0
    requires PinsJoined(ws, ws1, a, pins, adc, i)
    ensures PinsJoined(ws, ws1, a, pins, adc, next)
  {
    var g := View(ws, a);
    forall x ensures Passed(g, pins, adc, next, x) == Passed(g, pins, adc, i, x) {
      ThroughNext(g, pins, adc, i, next, x);
    }
    forall x | 0 <= x < |ws| ensures ThroughAt(g, pins, adc, next, ws[x], ws1[x], a, x) {
      ThroughNext(g, pins, adc, i, next, x);
      assert ThroughAt(g, pins, adc, i, ws[x], ws1[x], a, x);
    }
  }

  lemma PinsJoinedView(ws: seq<Widget>, ws1: seq<Widget>, a: nat, pins: seq<int>, adc: int, i: nat)
    requires i <= |pins| && PinsJoined(ws, ws1, a, pins, adc, i)
    ensures View(ws1, a) == View(ws, a)
  {
    var g := View(ws, a);
    forall x | 0 <= x < |ws| ensures NodeOf(ws1[x], a) == NodeOf(ws[x], a) {
      assert ThroughAt(g, pins, adc, i, ws[x], ws1[x], a, x);
      if k :| 0 <= k < i && pins[k] != 0 && OnWalk(g, pins[k], adc, 0, x) {
        MetOpen(g, pins[k], adc, 0, x);
      }
    }
  }

  lemma PassedNext(g: seq<Node>, pins: seq<int>, adc: int, i: nat, next: nat)
    requires i < |pins| && next == i + 1 && pins[i] != 0
    ensures forall y ::
              Passed(g, pins, adc, next, y) <==> Passed(g, pins, adc, i, y) || OnWalk(g, pins[i], adc, 0, y)
  {
    forall y ensures Passed(g, pins, adc, next, y) <==> Passed(g, pins, adc, i, y) || OnWalk(g, pins[i], adc, 0, y) {
      ThroughNext(g, pins, adc, i, next, y);
    }
  }

  lemma PinsJoinedStep(ws: seq<Widget>, ws1: seq<Widget>, ws2: seq<Widget>, a: nat, pins: seq<int>, adc: int, i: nat,
                       next: nat)
    requires i < |pins| && next == i + 1 && pins[i] != 0
    requires PinsJoined(ws, ws1, a, pins, adc, i) && AdcTraced(ws1, a, i, pins[i], adc, 0, true, ws2)
    ensures PinsJoined(ws, ws2, a, pins, adc, next)
  {
    PinsJoinedView(ws, ws1, a, pins, adc, i);
    forall x | 0 <= x < |ws| ensures ThroughAt(View(ws, a), pins, adc, next, ws[x], ws2[x], a, x) {
      PinsJoinedAt(ws, ws1, ws2, a, pins, adc, i, next, x);
    }
    forall k | 0 <= k < next && pins[k] != 0 ensures Joins(View(ws, a), pins[k], adc, 0) {
    }
  }

  lemma PinsSteeredStep(ws: seq<Widget>, ws1: seq<Widget>, ws2: seq<Widget>, a: nat, pins: seq<int>, adc: int, i: nat,
                        next: nat)
    requires i < |pins| && next == i + 1 && pins[i] != 0
    requires PinsJoined(ws, ws1, a, pins, adc, i) && AdcTraced(ws1, a, i, pins[i], adc, 0, true, ws2)
    requires View(ws1, a) == View(ws, a) && FirstSteered(ws, ws1, a, pins, adc, i)
    ensures FirstSteered(ws, ws2, a, pins, adc, next)
  {
    var g := View(ws, a);
    forall k | 0 <= k < next && pins[k] != 0 && (forall m :: 0 <= m < k ==> pins[m] == 0)
               && Acyclic(ws) && Unchosen(ws, Met(g, pins[k], adc, 0) - {pins[k]})
      ensures SteeredFrom(g, ws2, pins[k], adc, 0)
    {
      if k < i {
        var p :| IsWalk(g, p, adc, 0) && p[0] == pins[k] && Steered(ws1, p);
        var met := Met(g, pins[i], adc, 0);
        SteeredKept(ws1, ws2, a, i, met, met - {pins[i]}, met, p);
      } else {
        assert ws1 == ws by {
          forall x | 0 <= x < |ws| ensures ws1[x] == ws[x] {
            assert ThroughAt(g, pins, adc, i, ws[x], ws1[x], a, x);
          }
        }
      }
    }
  }

  lemma PinsJoinedAt(ws: seq<Widget>, ws1: seq<Widget>, ws2: seq<Widget>, a: nat, pins: seq<int>, adc: int, i: nat,
                     next: nat, x: int)
    requires i < |pins| && next == i + 1 && pins[i] != 0 && 0 <= x < |ws|
    requires PinsJoined(ws, ws1, a, pins, adc, i) && AdcTraced(ws1, a, i, pins[i], adc, 0, true, ws2)
    ensures ThroughAt(View(ws, a), pins, adc, next, ws[x], ws2[x], a, x)
  {
    var g := View(ws, a);
    PinsJoinedView(ws, ws1, a, pins, adc, i);
    var met := Met(g, pins[i], adc, 0);
    assert JoinedAt(ws1[x], ws2[x], a, i, x in met, x in met - {pins[i]}, met);
    ThroughStep(g, pins, adc, i, next, ws[x], ws1[x], ws2[x], a, x, met);
  }

  lemma ThroughStep(g: seq<Node>, pins: seq<int>, adc: int, i: nat, next: nat, w: Widget, w1: Widget, w2: Widget,
                    a: int, x: int, met: set<int>)
    requires i < |pins| && next == i + 1 && pins[i] != 0
    requires 0 <= x < |g| && met == Met(g, pins[i], adc, 0)
    requires ThroughAt(g, pins, adc, i, w, w1, a, x)
    requires JoinedAt(w1, w2, a, i, x in met, x in met - {pins[i]}, met)
    ensures ThroughAt(g, pins, adc, next, w, w2, a, x)
  {
    ThroughNext(g, pins, adc, i, next, x);
    if x in met {
      var through := PinsThrough(g, pins, adc, i, x);
      assert w.bindSeqMask + (through + {i}) == w.bindSeqMask + through + {i};
      PassedNext(g, pins, adc, i, next);
    } else {
      PassedNext(g, pins, adc, i, next);
    }
  }

  predicate Candidate(g: seq<Node>, adc: int)
  {
    IsOpen(g, adc) && g[adc].kind == AudioInput
  }

  /** Every pin of the association has a walk to the ADC. */
  ghost predicate JoinsAll(g: seq<Node>, pins: seq<int>, adc: int)
  {
    forall k :: 0 <= k < |pins| && pins[k] != 0 ==> Joins(g, pins[k], adc, 0)
  }

  /** No enabled widget is bound to a, unbound widgets carry no pin. */
  ghost predicate Unbound(ws: seq<Widget>, a: int)
  {
    forall n :: Live(ws, n) ==> ws[n].bindAssoc != a && (ws[n].bindAssoc < 0 ==> ws[n].bindSeqMask == {})
  }

  /** The pins have been joined to the least ADC they all reach, from ws1. */
  ghost predicate AdcFound(ws: seq<Widget>, as0: seq<Assoc>, a: nat, adc: int, ws1: seq<Widget>, ws': seq<Widget>,
                           as': seq<Assoc>)
    requires a < |as0| && AssocOk(as0[a])
  {
    var g, pins := View(ws, a), as0[a].pins;
    && Candidate(g, adc) && JoinsAll(g, pins, adc)
    && (forall e :: Candidate(g, e) && e < adc ==> !JoinsAll(g, pins, e))
    && Undone(ws, ws1) && PinsJoined(ws1, ws', a, pins, adc, PINS) && FirstSteered(ws1, ws', a, pins, adc, PINS)
    && as' == as0[a := as0[a].(dacs := AdcOf(pins, adc, PINS))]
  }

  /** What audioTraceAssociationIn leaves.  On success the least ADC that every
      pin reaches is the "DAC" of all of them, and a widget carries exactly
      the pins that have a walk through it.  It fails exactly when there is
      no such ADC, and then everything is undone. */
  ghost predicate InputTraced(ws: seq<Widget>, as0: seq<Assoc>, a: nat, ok: bool, ws': seq<Widget>, as': seq<Assoc>)
    requires a < |as0| && AssocOk(as0[a])
  {
    var g := View(ws, a);
    var pins := as0[a].pins;
    if ok then
      exists adc, ws1 :: AdcFound(ws, as0, a, adc, ws1, ws', as')
    else
      (forall e :: Candidate(g, e) ==> !JoinsAll(g, pins, e)) && Undone(ws, ws') && as' == as0
  }

  /** The ADC for the present pins below i, 0 elsewhere. */
  function AdcOf(pins: seq<int>, adc: int, i: nat): (dacs: seq<int>)
    ensures |dacs| == |pins|
  {
    seq(|pins|, k requires 0 <= k < |pins| => if k < i && pins[k] != 0 then adc else 0)
  }

  lemma UndoneView(ws: seq<Widget>, ws': seq<Widget>, a: nat)
    requires Undone(ws, ws') && Unbound(ws, a)
    ensures View(ws', a) == View(ws, a) && Unbound(ws', a)
  {
    forall n | 0 <= n < |ws| ensures NodeOf(ws'[n], a) == NodeOf(ws[n], a) {
    }
    forall n | Live(ws', n)
      ensures ws'[n].bindAssoc != a && (ws'[n].bindAssoc < 0 ==> ws'[n].bindSeqMask == {})
    {
      assert Live(ws, n) && ws[n].bindAssoc != a;
    }
  }

  /** Erasing the association's traces after some pins have been joined. */
  lemma PinsUndone(ws: seq<Widget>, ws1: seq<Widget>, ws2: seq<Widget>, a: nat, pins: seq<int>, adc: int, i: nat)
    requires i <= |pins| && Unbound(ws, a) && Undone(ws, ws1) && PinsJoined(ws1, ws2, a, pins, adc, i)
    ensures Undone(ws, Undo(ws2, a, -1))
  {
    var g := View(ws1, a);
    var us := Undo(ws2, a, -1);
    UndoneView(ws, ws1, a);
    forall n | 0 <= n < |ws|
      ensures us[n] == ws[n] || (ws[n].enable && ws[n].bindAssoc < 0 && us[n] == Cleared(ws[n]))
    {
      assert ThroughAt(g, pins, adc, i, ws1[n], ws2[n], a, n);
      assert ws1[n].enable ==> Live(ws1, n) && Live(ws, n);
      if k :| 0 <= k < i && pins[k] != 0 && OnWalk(g, pins[k], adc, 0, n) {
        MetOpen(g, pins[k], adc, 0, n);
      }
    }
  }

  function WithDacs(as0: seq<Assoc>, a: nat, dacs: seq<int>): (as1: seq<Assoc>)
    requires a < |as0|
    ensures |as1| == |as0|
  {
    as0[a := as0[a].(dacs := dacs)]
  }

  lemma AdcOfNext(as0: seq<Assoc>, as1: seq<Assoc>, a: nat, adc: int, i: nat, next: nat)
    requires a < |as0| && AssocOk(as0[a]) && i < PINS && next == i + 1
    requires as1 == WithDacs(as0, a, AdcOf(as0[a].pins, adc, i))
    ensures var pins := as0[a].pins;
            WithDacs(as0, a, AdcOf(pins, adc, next)) ==
            if pins[i] == 0 then as1 else WithDacs(as1, a, as1[a].dacs[i := adc])
  {
    var pins := as0[a].pins;
    assert AdcOf(pins, adc, next) == if pins[i] == 0 then AdcOf(pins, adc, i) else AdcOf(pins, adc, i)[i := adc];
  }

  /** Tracing one pin after the other to the same ADC. */
  method TryAdc(fg: FunctionGroup, assocNum: nat, adc: nat) returns (ok: bool)
    requires fg.ValidWidgets() && fg.ValidAssocs() && assocNum < fg.assocs.Length
    requires Unbound(fg.widgets[..], assocNum)
    requires fg.assocs[assocNum].dacs == AdcOf(fg.assocs[assocNum].pins, 0, 0)
    modifies fg.widgets, fg.assocs
    ensures fg.ValidWidgets()
    ensures ok == JoinsAll(View(old(fg.widgets[..]), assocNum), old(fg.assocs[assocNum].pins), adc)
    ensures ok ==>
      && PinsJoined(old(fg.widgets[..]), fg.widgets[..], assocNum, old(fg.assocs[assocNum].pins), adc, PINS)
      && FirstSteered(old(fg.widgets[..]), fg.widgets[..], assocNum, old(fg.assocs[assocNum].pins), adc, PINS)
      && fg.assocs[..] == WithDacs(old(fg.assocs[..]), assocNum, AdcOf(old(fg.assocs[assocNum].pins), adc, PINS))
    ensures !ok ==> Undone(old(fg.widgets[..]), fg.widgets[..]) && fg.assocs[..] == old(fg.assocs[..])
  {
    ghost var ws, as0 := fg.widgets[..], fg.assocs[..];
    var pins := fg.assocs[assocNum].pins;
    PinsJoinedStart(ws, assocNum, pins, adc);
    assert AdcOf(pins, adc, 0) == AdcOf(pins, 0, 0);
    var i := 0;
    while i < PINS
      invariant 0 <= i <= PINS
      invariant fg.ValidWidgets()
      invariant PinsJoined(ws, fg.widgets[..], assocNum, pins, adc, i)
      invariant FirstSteered(ws, fg.widgets[..], assocNum, pins, adc, i)
      invariant fg.assocs[..] == WithDacs(as0, assocNum, AdcOf(pins, adc, i))
    {
      ghost var k, ws1, as1 := i, fg.widgets[..], fg.assocs[..];
      PinsJoinedView(ws, ws1, assocNum, pins, adc, k);
      if pins[i] != 0 {
        var res := AudioTraceAdc(fg, assocNum, i, pins[i], adc, 0);
        if !res {
          PinsUndone(ws, ws, ws1, assocNum, pins, adc, i);
          AudioUndoTrace(fg, assocNum, -1);
          ClearDacs(fg, assocNum, as0);
          return false;
        }
        fg.assocs[assocNum] := fg.assocs[assocNum].(dacs := fg.assocs[assocNum].dacs[i := adc]);
      }
      i := i + 1;
      AdcOfNext(as0, as1, assocNum, adc, k, i);
      if pins[k] == 0 {
        PinsJoinedSkip(ws, ws1, assocNum, pins, adc, k, i);
      } else {
        PinsJoinedStep(ws, ws1, fg.widgets[..], assocNum, pins, adc, k, i);
        PinsSteeredStep(ws, ws1, fg.widgets[..], assocNum, pins, adc, k, i);
      }
    }
    return true;
  }

  method ClearDacs(fg: FunctionGroup, assocNum: nat, ghost as0: seq<Assoc>)
    requires assocNum < fg.assocs.Length && assocNum < |as0| && AssocOk(as0[assocNum])
    requires as0[assocNum].dacs == AdcOf(as0[assocNum].pins, 0, 0)
    requires exists dacs :: |dacs| == PINS && fg.assocs[..] == WithDacs(as0, assocNum, dacs)
    modifies fg.assocs
    ensures fg.assocs[..] == as0
  {
    var k := 0;
    while k < PINS
      invariant 0 <= k <= PINS
      invariant |fg.assocs[assocNum].dacs| == PINS
      invariant fg.assocs[..] == WithDacs(as0, assocNum, fg.assocs[assocNum].dacs)
      invariant forall j :: 0 <= j < k ==> fg.assocs[assocNum].dacs[j] == 0
    {
      fg.assocs[assocNum] := fg.assocs[assocNum].(dacs := fg.assocs[assocNum].dacs[k := 0]);
      k := k + 1;
    }
    assert fg.assocs[assocNum].dacs == as0[assocNum].dacs;
  }

  /** audioTraceAssociationIn: the first ADC all pins of the association reach. */
  method AudioTraceAssociationIn(fg: FunctionGroup, assocNum: nat) returns (ok: bool)
    requires fg.ValidWidgets() && fg.ValidAssocs() && assocNum < fg.assocs.Length
    requires Unbound(fg.widgets[..], assocNum)
    requires fg.assocs[assocNum].dacs == AdcOf(fg.assocs[assocNum].pins, 0, 0)
    modifies fg.widgets, fg.assocs
    ensures fg.ValidWidgets()
    ensures assocNum < |old(fg.assocs[..])| && AssocOk(old(fg.assocs[assocNum]))
    ensures InputTraced(old(fg.widgets[..]), old(fg.assocs[..]), assocNum, ok, fg.widgets[..], fg.assocs[..])
  {
    ghost var ws, as0 := fg.widgets[..], fg.assocs[..];
    ghost var g, pins := View(ws, assocNum), as0[assocNum].pins;
    var j := fg.startNode;
    while j < fg.widgets.Length
      invariant fg.startNode <= j <= fg.widgets.Length
      invariant fg.ValidWidgets()
      invariant Undone(ws, fg.widgets[..]) && fg.assocs[..] == as0
      invariant forall e :: Candidate(g, e) && e < j ==> !JoinsAll(g, pins, e)
    {
      ghost var ws1 := fg.widgets[..];
      UndoneView(ws, ws1, assocNum);
      var widget := fg.widgets[j];
      assert Candidate(g, j) <==> NodeOf(widget, assocNum).open && widget.kind == AudioInput;
      if widget.enable && widget.kind == AudioInput
         && !(widget.bindAssoc >= 0 && widget.bindAssoc != assocNum) {
        ok := TryAdc(fg, assocNum, j);
        if ok {
          assert AdcFound(ws, as0, assocNum, j, ws1, fg.widgets[..], fg.assocs[..]);
          return;
        }
        assert Undone(ws, fg.widgets[..]);
      }
      j := j + 1;
    }
    return false;
  }
}
