/** audioCtlRecSelComm: switches the recording paths below a widget to the
    requested sources, mixers by muting, selectors by selecting. */
module RecordSelect {
  import opened HdaGraph
  import opened Configuration
  import opened Amplifiers
  import opened PruningPasses
  import opened CodecCommit
  import opened JackSwitch
  import opened MicSwitch
  import opened SwitchPoll

  /** The mixer sources of every widget (ossmask) and its own mixer channel
      (ossdev), negative for none. */
  datatype Sources = Sources(masks: seq<set<int>>, devs: seq<int>)

  predicate SourcesOk(so: Sources, n: nat)
  {
    |so.masks| == n && |so.devs| == n
  }

  /** Connection i of widget j is one the selection follows. */
  predicate RecEdge(ws: seq<Widget>, j: int, i: int)
  {
    Live(ws, j) && Enabled(ws[j], i) && Live(ws, ws[j].conns[i]) && ws[ws[j].conns[i]].bindAssoc != -1
  }

  /** The connection carries a requested source. */
  predicate Carrying(ws: seq<Widget>, so: Sources, src: set<int>, j: int, i: int)
    requires SourcesOk(so, |ws|) && RecEdge(ws, j, i)
  {
    Shares(src, so.masks[ws[j].conns[i]])
  }

  /** Control c belongs to connection i of mixer j. */
  predicate MixerInput(ws: seq<Widget>, cs: seq<Control>, j: int, i: int, c: int)
  {
    RecEdge(ws, j, i) && ws[j].kind == Mixer && IsNth(cs, j, In, i, 1, c)
  }

  /** The force is what the source at some input of control c asks for. */
  ghost predicate Asked(ws: seq<Widget>, cs: seq<Control>, so: Sources, src: set<int>, c: int, force: bool)
    requires SourcesOk(so, |ws|)
  {
    exists j, i :: MixerInput(ws, cs, j, i, c) && force == !Carrying(ws, so, src, j, i)
  }

  /** The first of the first n connections of selector j that carries a
      requested source, -1 for none. */
  function FirstCarrying(ws: seq<Widget>, so: Sources, src: set<int>, j: int, n: nat): int
    requires SourcesOk(so, |ws|)
  {
    if n == 0 then -1
    else
      var f := FirstCarrying(ws, so, src, j, n - 1);
      if f != -1 then f
      else if RecEdge(ws, j, n - 1) && Carrying(ws, so, src, j, n - 1) then n - 1 else -1
  }

  lemma {:induction false} FirstStays(ws: seq<Widget>, so: Sources, src: set<int>, j: int, n: nat, m: nat)
    requires SourcesOk(so, |ws|) && n <= m && FirstCarrying(ws, so, src, j, n) != -1
    ensures FirstCarrying(ws, so, src, j, m) == FirstCarrying(ws, so, src, j, n)
  {
    if n < m {
      FirstStays(ws, so, src, j, n, m - 1);
    }
  }

  /** What the selection may change: the mute of a mixer input, to what its
      source asks for, and where a selector stands, to the first connection that
      carries a requested source. */
  ghost predicate RecFrame(ws: seq<Widget>, cs: seq<Control>, ws': seq<Widget>, cs': seq<Control>, so: Sources,
                           src: set<int>)
    requires SourcesOk(so, |ws|)
  {
    && SameNodes(ws, ws') && AllSame(cs, cs')
    && (forall n :: 0 <= n < |ws| ==> ws'[n].ctrl == ws[n].ctrl && ws'[n].sense == ws[n].sense)
    && (forall n :: 0 <= n < |ws| && ws'[n].selconn != ws[n].selconn ==>
          ws[n].kind == Selector && ws'[n].selconn == FirstOf(ws, so, src, n) != -1)
    && (forall c :: 0 <= c < |cs| ==> cs'[c] == cs[c] || Asked(ws, cs, so, src, c, cs'[c].forcemute))
  }

  function FirstOf(ws: seq<Widget>, so: Sources, src: set<int>, j: int): int
    requires SourcesOk(so, |ws|) && 0 <= j < |ws|
  {
    FirstCarrying(ws, so, src, j, |ws[j].conns|)
  }

  lemma RecEdgeStays(ws: seq<Widget>, ws': seq<Widget>, j: int, i: int)
    requires SameNodes(ws, ws')
    ensures RecEdge(ws', j, i) == RecEdge(ws, j, i)
    ensures 0 <= j < |ws| ==> ws'[j].conns == ws[j].conns && ws'[j].kind == ws[j].kind
  {
    if 0 <= j < |ws| {
      assert SameNode(ws[j], ws'[j]);
      if Enabled(ws[j], i) && 0 <= ws[j].conns[i] < |ws| {
        assert SameNode(ws[ws[j].conns[i]], ws'[ws[j].conns[i]]);
      }
    }
  }

  lemma {:induction false} SameFirst(ws: seq<Widget>, ws': seq<Widget>, so: Sources, src: set<int>, j: int, n: nat)
    requires SameNodes(ws, ws') && SourcesOk(so, |ws|)
    ensures FirstCarrying(ws', so, src, j, n) == FirstCarrying(ws, so, src, j, n)
  {
    if n > 0 {
      SameFirst(ws, ws', so, src, j, n - 1);
      RecEdgeStays(ws, ws', j, n - 1);
    }
  }

  lemma RecFrameTwice(ws: seq<Widget>, cs: seq<Control>, ws1: seq<Widget>, cs1: seq<Control>, ws2: seq<Widget>,
                      cs2: seq<Control>, so: Sources, src: set<int>)
    requires SourcesOk(so, |ws|) && |ws1| == |ws|
    requires RecFrame(ws, cs, ws1, cs1, so, src) && RecFrame(ws1, cs1, ws2, cs2, so, src)
    ensures RecFrame(ws, cs, ws2, cs2, so, src)
  {
    forall n | 0 <= n < |ws|
      ensures SameNode(ws[n], ws2[n]) && ws2[n].ctrl == ws[n].ctrl && ws2[n].sense == ws[n].sense
      ensures ws2[n].selconn != ws[n].selconn ==>
                ws[n].kind == Selector && ws2[n].selconn == FirstOf(ws, so, src, n) != -1
    {
      assert SameNode(ws[n], ws1[n]) && SameNode(ws1[n], ws2[n]);
      SameFirst(ws, ws1, so, src, n, |ws[n].conns|);
    }
    forall c | 0 <= c < |cs|
      ensures SameControl(cs[c], cs2[c]) && (cs2[c] == cs[c] || Asked(ws, cs, so, src, c, cs2[c].forcemute))
    {
      assert SameControl(cs[c], cs1[c]) && SameControl(cs1[c], cs2[c]);
      if cs2[c] != cs1[c] {
        var j, i :| MixerInput(ws1, cs1, j, i, c) && cs2[c].forcemute == !Carrying(ws1, so, src, j, i);
        RecEdgeStays(ws, ws1, j, i);
        SameNth(cs, cs1, j, In, i, c);
        assert MixerInput(ws, cs, j, i, c);
      }
    }
  }

  /** The inputs below n of mixer j are as their sources ask. */
  ghost predicate MixerDone(ws: seq<Widget>, cs: seq<Control>, cs': seq<Control>, so: Sources, src: set<int>, j: int,
                            n: int)
    requires SourcesOk(so, |ws|) && |cs'| == |cs|
  {
    forall i, c :: i < n && MixerInput(ws, cs, j, i, c) && cs[c].dir == In ==>
         cs'[c].forcemute == !Carrying(ws, so, src, j, i)
  }

  /** Whatever is switched later asks the same of an input of its own. */
  lemma MixerStaysDone(ws: seq<Widget>, cs: seq<Control>, cs1: seq<Control>, ws1: seq<Widget>, ws2: seq<Widget>,
                       cs2: seq<Control>, so: Sources, src: set<int>, j: int, n: int)
    requires SourcesOk(so, |ws|) && |ws1| == |ws| && AllSame(cs, cs1) && SameNodes(ws, ws1)
    requires MixerDone(ws, cs, cs1, so, src, j, n) && RecFrame(ws1, cs1, ws2, cs2, so, src)
    ensures MixerDone(ws, cs, cs2, so, src, j, n)
  {
    forall i, c | i < n && MixerInput(ws, cs, j, i, c) && cs[c].dir == In
      ensures cs2[c].forcemute == !Carrying(ws, so, src, j, i)
    {
      if cs2[c] != cs1[c] {
        var j', i' :| MixerInput(ws1, cs1, j', i', c) && cs2[c].forcemute == !Carrying(ws1, so, src, j', i');
        RecEdgeStays(ws, ws1, j', i');
        SameNth(cs, cs1, j', In, i', c);
        assert CtlMatches(cs[c], j', In, i') && CtlMatches(cs[c], j, In, i);
      }
    }
  }

  /** The first i connections of widget nid have been followed. */
  ghost predicate Followed(ws: seq<Widget>, cs: seq<Control>, ws': seq<Widget>, cs': seq<Control>, so: Sources,
                           src: set<int>, nid: int, i: nat)
    requires SourcesOk(so, |ws|)
  {
    && RecFrame(ws, cs, ws', cs', so, src)
    && MixerDone(ws, cs, cs', so, src, nid, i)
    && (0 <= nid < |ws| && ws[nid].kind == Selector ==>
          var f := FirstCarrying(ws, so, src, nid, i); ws'[nid].selconn == if f == -1 then ws[nid].selconn else f)
  }

  /** Widget m is switched: a mixer's inputs are mute exactly where they carry no
      requested source, a selector stands on the first connection that does. */
  ghost predicate WidgetDone(ws: seq<Widget>, cs: seq<Control>, ws': seq<Widget>, cs': seq<Control>, so: Sources,
                             src: set<int>, m: int)
    requires SourcesOk(so, |ws|) && |ws'| == |ws| && |cs'| == |cs| && 0 <= m < |ws|
  {
    && MixerDone(ws, cs, cs', so, src, m, |ws[m].conns|)
    && (ws[m].kind == Selector ==>
          ws'[m].selconn == if FirstOf(ws, so, src, m) == -1 then ws[m].selconn else FirstOf(ws, so, src, m))
  }

  /** The switching goes on below connection i of widget j: it carries a
      requested source from a widget without a mixer channel, and a selector has
      none before it. */
  predicate Descends(ws: seq<Widget>, so: Sources, src: set<int>, j: int, i: int)
    requires SourcesOk(so, |ws|)
  {
    && RecEdge(ws, j, i) && Carrying(ws, so, src, j, i) && so.devs[ws[j].conns[i]] < 0
    && (ws[j].kind == Selector ==> FirstCarrying(ws, so, src, j, i) == -1)
  }

  /** A call for nid at this depth reaches widget m. */
  ghost predicate Reaches(ws: seq<Widget>, so: Sources, src: set<int>, nid: int, depth: nat, m: int)
    requires SourcesOk(so, |ws|)
    decreases MAX_DEPTH + 1 - depth
  {
    && depth <= MAX_DEPTH && Live(ws, nid)
    && (m == nid || exists i :: Descends(ws, so, src, nid, i) && Reaches(ws, so, src, ws[nid].conns[i], depth + 1, m))
  }

  /** What a call answers: the sources of the channels it ends at. */
  function SourcesFrom(ws: seq<Widget>, so: Sources, src: set<int>, nid: int, depth: nat): set<int>
    requires SourcesOk(so, |ws|)
    decreases MAX_DEPTH + 1 - depth, 1, 0
  {
    if depth <= MAX_DEPTH && Live(ws, nid) then SourcesBelow(ws, so, src, nid, depth, |ws[nid].conns|) else {}
  }

  /** The sources behind the first n connections of nid. */
  function SourcesBelow(ws: seq<Widget>, so: Sources, src: set<int>, nid: int, depth: nat, n: nat): set<int>
    requires SourcesOk(so, |ws|) && depth <= MAX_DEPTH && Live(ws, nid)
    decreases MAX_DEPTH + 1 - depth, 0, n
  {
    if n == 0 then {}
    else
      SourcesBelow(ws, so, src, nid, depth, n - 1) +
      if RecEdge(ws, nid, n - 1) && Carrying(ws, so, src, nid, n - 1)
         && (ws[nid].kind == Selector ==> FirstCarrying(ws, so, src, nid, n - 1) == -1)
      then SourcesBehind(ws, so, src, ws[nid].conns[n - 1], depth)
      else {}
  }

  function SourcesBehind(ws: seq<Widget>, so: Sources, src: set<int>, child: int, depth: nat): set<int>
    requires SourcesOk(so, |ws|) && depth <= MAX_DEPTH && Live(ws, child)
    decreases MAX_DEPTH + 1 - depth, 0, 0
  {
    if so.devs[child] < 0 then SourcesFrom(ws, so, src, child, depth + 1) else so.masks[child]
  }

  lemma SameDescends(ws: seq<Widget>, ws': seq<Widget>, so: Sources, src: set<int>, j: int, i: int)
    requires SameNodes(ws, ws') && SourcesOk(so, |ws|)
    ensures Descends(ws', so, src, j, i) == Descends(ws, so, src, j, i)
  {
    RecEdgeStays(ws, ws', j, i);
    if i >= 0 {
      SameFirst(ws, ws', so, src, j, i);
    }
  }

  lemma {:induction false} SameReaches(ws: seq<Widget>, ws': seq<Widget>, so: Sources, src: set<int>, nid: int,
                                       depth: nat, m: int)
    requires SameNodes(ws, ws') && SourcesOk(so, |ws|) && Reaches(ws, so, src, nid, depth, m)
    ensures Reaches(ws', so, src, nid, depth, m)
    decreases MAX_DEPTH + 1 - depth
  {
    assert SameNode(ws[nid], ws'[nid]);
    if m != nid {
      var i :| Descends(ws, so, src, nid, i) && Reaches(ws, so, src, ws[nid].conns[i], depth + 1, m);
      SameReaches(ws, ws', so, src, ws[nid].conns[i], depth + 1, m);
      SameDescends(ws, ws', so, src, nid, i);
    }
  }

  lemma {:induction false} SameSources(ws: seq<Widget>, ws': seq<Widget>, so: Sources, src: set<int>, nid: int,
                                       depth: nat)
    requires SameNodes(ws, ws') && SourcesOk(so, |ws|)
    ensures SourcesFrom(ws', so, src, nid, depth) == SourcesFrom(ws, so, src, nid, depth)
    decreases MAX_DEPTH + 1 - depth, 1, 0
  {
    if 0 <= nid < |ws| {
      assert SameNode(ws[nid], ws'[nid]);
      if depth <= MAX_DEPTH && Live(ws, nid) {
        SameSourcesBelow(ws, ws', so, src, nid, depth, |ws[nid].conns|);
      }
    }
  }

  lemma {:induction false} SameSourcesBelow(ws: seq<Widget>, ws': seq<Widget>, so: Sources, src: set<int>, nid: int,
                                            depth: nat, n: nat)
    requires SameNodes(ws, ws') && SourcesOk(so, |ws|) && depth <= MAX_DEPTH && Live(ws, nid) && Live(ws', nid)
    ensures SourcesBelow(ws', so, src, nid, depth, n) == SourcesBelow(ws, so, src, nid, depth, n)
    decreases MAX_DEPTH + 1 - depth, 0, n
  {
    if n > 0 {
      SameSourcesBelow(ws, ws', so, src, nid, depth, n - 1);
      RecEdgeStays(ws, ws', nid, n - 1);
      SameFirst(ws, ws', so, src, nid, n - 1);
      if RecEdge(ws, nid, n - 1) {
        SameSources(ws, ws', so, src, ws[nid].conns[n - 1], depth + 1);
      }
    }
  }

  /** Whatever is switched later leaves a switched widget as it is. */
  lemma WidgetStaysDone(ws: seq<Widget>, cs: seq<Control>, ws1: seq<Widget>, cs1: seq<Control>, ws2: seq<Widget>,
                        cs2: seq<Control>, so: Sources, src: set<int>, m: int)
    requires SourcesOk(so, |ws|) && RecFrame(ws, cs, ws1, cs1, so, src) && 0 <= m < |ws|
    requires WidgetDone(ws, cs, ws1, cs1, so, src, m) && RecFrame(ws1, cs1, ws2, cs2, so, src)
    ensures WidgetDone(ws, cs, ws2, cs2, so, src, m)
  {
    MixerStaysDone(ws, cs, cs1, ws1, ws2, cs2, so, src, m, |ws[m].conns|);
    assert SameNode(ws[m], ws1[m]);
    SameFirst(ws, ws1, so, src, m, |ws[m].conns|);
  }

  /** ... and a widget switched later is switched, said of the state before. */
  lemma WidgetDoneSince(ws: seq<Widget>, cs: seq<Control>, ws1: seq<Widget>, cs1: seq<Control>, ws2: seq<Widget>,
                        cs2: seq<Control>, so: Sources, src: set<int>, m: int)
    requires SourcesOk(so, |ws|) && RecFrame(ws, cs, ws1, cs1, so, src)
    requires 0 <= m < |ws| && |ws2| == |ws| && |cs2| == |cs|
    requires WidgetDone(ws1, cs1, ws2, cs2, so, src, m)
    ensures WidgetDone(ws, cs, ws2, cs2, so, src, m)
  {
    assert SameNode(ws[m], ws1[m]);
    SameFirst(ws, ws1, so, src, m, |ws[m].conns|);
    forall i, c | i < |ws[m].conns| && MixerInput(ws, cs, m, i, c) && cs[c].dir == In
      ensures cs2[c].forcemute == !Carrying(ws, so, src, m, i)
    {
      RecEdgeStays(ws, ws1, m, i);
      SameNth(cs, cs1, m, In, i, c);
      assert MixerInput(ws1, cs1, m, i, c);
    }
  }

  /** What a call leaves: every widget it reaches is switched, nothing else has
      changed but what these ask for. */
  ghost predicate RecSelected(ws: seq<Widget>, cs: seq<Control>, ws': seq<Widget>, cs': seq<Control>, so: Sources,
                              src: set<int>, nid: int, depth: nat)
    requires SourcesOk(so, |ws|)
  {
    && RecFrame(ws, cs, ws', cs', so, src)
    && forall m :: 0 <= m < |ws| && Reaches(ws, so, src, nid, depth, m) ==> WidgetDone(ws, cs, ws', cs', so, src, m)
  }

  /** The widgets reached below the first n connections of nid are switched. */
  ghost predicate BelowDone(ws: seq<Widget>, cs: seq<Control>, ws': seq<Widget>, cs': seq<Control>, so: Sources,
                            src: set<int>, nid: int, depth: nat, n: nat)
    requires SourcesOk(so, |ws|) && |ws'| == |ws| && |cs'| == |cs| && Live(ws, nid)
  {
    forall i, m :: 0 <= i < n && 0 <= m < |ws| && Descends(ws, so, src, nid, i)
                   && Reaches(ws, so, src, ws[nid].conns[i], depth + 1, m)
      ==> WidgetDone(ws, cs, ws', cs', so, src, m)
  }

  lemma BelowStaysDone(ws: seq<Widget>, cs: seq<Control>, ws1: seq<Widget>, cs1: seq<Control>, ws2: seq<Widget>,
                       cs2: seq<Control>, so: Sources, src: set<int>, nid: int, depth: nat, n: nat)
    requires SourcesOk(so, |ws|) && Live(ws, nid) && RecFrame(ws, cs, ws1, cs1, so, src)
    requires BelowDone(ws, cs, ws1, cs1, so, src, nid, depth, n) && RecFrame(ws1, cs1, ws2, cs2, so, src)
    ensures BelowDone(ws, cs, ws2, cs2, so, src, nid, depth, n)
  {
    forall m | 0 <= m < |ws| && WidgetDone(ws, cs, ws1, cs1, so, src, m)
      ensures WidgetDone(ws, cs, ws2, cs2, so, src, m)
    {
      WidgetStaysDone(ws, cs, ws1, cs1, ws2, cs2, so, src, m);
    }
  }

  /** A call for connection n has been made where it is to be made. */
  lemma BelowDoneNext(ws: seq<Widget>, cs: seq<Control>, ws1: seq<Widget>, cs1: seq<Control>, ws2: seq<Widget>,
                      cs2: seq<Control>, so: Sources, src: set<int>, nid: int, depth: nat, n: nat, next: nat)
    requires SourcesOk(so, |ws|) && Live(ws, nid) && RecFrame(ws, cs, ws1, cs1, so, src) && next == n + 1
    requires BelowDone(ws, cs, ws1, cs1, so, src, nid, depth, n)
    requires if Descends(ws, so, src, nid, n)
             then |ws1| == |ws| && RecSelected(ws1, cs1, ws2, cs2, so, src, ws[nid].conns[n], depth + 1)
             else ws2 == ws1 && cs2 == cs1
    ensures BelowDone(ws, cs, ws2, cs2, so, src, nid, depth, next)
  {
    if Descends(ws, so, src, nid, n) {
      BelowStaysDone(ws, cs, ws1, cs1, ws2, cs2, so, src, nid, depth, n);
      forall m | 0 <= m < |ws| && Reaches(ws, so, src, ws[nid].conns[n], depth + 1, m)
        ensures WidgetDone(ws, cs, ws2, cs2, so, src, m)
      {
        SameReaches(ws, ws1, so, src, ws[nid].conns[n], depth + 1, m);
        WidgetDoneSince(ws, cs, ws1, cs1, ws2, cs2, so, src, m);
      }
    }
  }

  /** All connections of nid have been followed. */
  lemma CallDone(ws: seq<Widget>, cs: seq<Control>, ws': seq<Widget>, cs': seq<Control>, so: Sources, src: set<int>,
                 nid: int, depth: nat)
    requires SourcesOk(so, |ws|) && Live(ws, nid) && Followed(ws, cs, ws', cs', so, src, nid, |ws[nid].conns|)
    requires BelowDone(ws, cs, ws', cs', so, src, nid, depth, |ws[nid].conns|)
    ensures RecSelected(ws, cs, ws', cs', so, src, nid, depth)
  {
  }

  lemma NothingSelected(ws: seq<Widget>, cs: seq<Control>, so: Sources, src: set<int>, nid: int)
    requires SourcesOk(so, |ws|)
    ensures Followed(ws, cs, ws, cs, so, src, nid, 0)
  {
    assert forall i, c :: MixerInput(ws, cs, nid, i, c) ==> i >= 0;
  }

  // ----- One connection -----

  /** The paths below connection i have been switched. */
  lemma FollowedBelow(ws: seq<Widget>, cs: seq<Control>, ws1: seq<Widget>, cs1: seq<Control>, ws2: seq<Widget>,
                      cs2: seq<Control>, so: Sources, src: set<int>, nid: int, i: nat)
    requires SourcesOk(so, |ws|) && Followed(ws, cs, ws1, cs1, so, src, nid, i) && RecFrame(ws1, cs1, ws2, cs2, so, src)
    ensures RecFrame(ws, cs, ws2, cs2, so, src) && MixerDone(ws, cs, cs2, so, src, nid, i)
  {
    RecFrameTwice(ws, cs, ws1, cs1, ws2, cs2, so, src);
    MixerStaysDone(ws, cs, cs1, ws1, ws2, cs2, so, src, nid, i);
  }

  lemma MixerFrame(ws: seq<Widget>, cs: seq<Control>, ws1: seq<Widget>, cs1: seq<Control>, cs2: seq<Control>,
                   so: Sources, src: set<int>, nid: int, i: nat)
    requires SourcesOk(so, |ws|) && RecFrame(ws, cs, ws1, cs1, so, src) && RecEdge(ws, nid, i) && ws[nid].kind == Mixer
    requires EdgeForced(cs, cs1, cs2, nid, i, Carrying(ws, so, src, nid, i)) && AllSame(cs, cs2)
    ensures |ws1| == |ws| && RecFrame(ws1, cs1, ws1, cs2, so, src)
  {
    RecEdgeStays(ws, ws1, nid, i);
    forall c | 0 <= c < |cs|
      ensures SameControl(cs1[c], cs2[c])
      ensures cs2[c] == cs1[c] || Asked(ws1, cs1, so, src, c, cs2[c].forcemute)
    {
      assert SameControl(cs[c], cs1[c]) && SameControl(cs[c], cs2[c]);
      SameNth(cs, cs1, nid, In, i, c);
      if cs2[c] != cs1[c] {
        assert MixerInput(ws1, cs1, nid, i, c);
      }
    }
  }

  /** The input of a mixer has been muted or opened. */
  lemma MixerFollowed(ws: seq<Widget>, cs: seq<Control>, ws1: seq<Widget>, cs1: seq<Control>, cs2: seq<Control>,
                      so: Sources, src: set<int>, nid: int, i: nat, next: nat)
    requires SourcesOk(so, |ws|) && RecFrame(ws, cs, ws1, cs1, so, src) && MixerDone(ws, cs, cs1, so, src, nid, i)
    requires RecEdge(ws, nid, i) && ws[nid].kind == Mixer && next == i + 1
    requires EdgeForced(cs, cs1, cs2, nid, i, Carrying(ws, so, src, nid, i)) && AllSame(cs, cs2)
    ensures Followed(ws, cs, ws1, cs2, so, src, nid, next) && RecFrame(ws1, cs1, ws1, cs2, so, src)
  {
    MixerFrame(ws, cs, ws1, cs1, cs2, so, src, nid, i);
    forall c | 0 <= c < |cs| ensures cs2[c] == cs[c] || Asked(ws, cs, so, src, c, cs2[c].forcemute) {
      if cs2[c] != cs1[c] {
        assert MixerInput(ws, cs, nid, i, c);
      }
    }
    forall k, c | k < next && MixerInput(ws, cs, nid, k, c) && cs[c].dir == In
      ensures cs2[c].forcemute == !Carrying(ws, so, src, nid, k)
    {
      if IsNth(cs, nid, In, i, 1, c) {
        assert CtlMatches(cs[c], nid, In, i) && CtlMatches(cs[c], nid, In, k);
      }
    }
  }

  /** A selector has been moved to the connection. */
  lemma SelectorFollowed(ws: seq<Widget>, cs: seq<Control>, ws1: seq<Widget>, cs1: seq<Control>, ws2: seq<Widget>,
                         so: Sources, src: set<int>, nid: int, i: nat, next: nat)
    requires SourcesOk(so, |ws|) && RecFrame(ws, cs, ws1, cs1, so, src) && MixerDone(ws, cs, cs1, so, src, nid, i)
    requires RecEdge(ws, nid, i) && ws[nid].kind == Selector && next == i + 1
    requires Carrying(ws, so, src, nid, i) && FirstCarrying(ws, so, src, nid, i) == -1
    requires ws2 == ws1[nid := ws1[nid].(selconn := i)]
    ensures Followed(ws, cs, ws2, cs1, so, src, nid, next) && RecFrame(ws1, cs1, ws2, cs1, so, src)
  {
    FirstStays(ws, so, src, nid, next, |ws[nid].conns|);
    SameFirst(ws, ws1, so, src, nid, |ws[nid].conns|);
    forall n | 0 <= n < |ws| ensures SameNode(ws[n], ws2[n]) {
      assert SameNode(ws[n], ws1[n]);
    }
  }

  lemma EdgeSkipped(ws: seq<Widget>, cs: seq<Control>, ws1: seq<Widget>, cs1: seq<Control>, so: Sources, src: set<int>,
                    nid: int, i: nat, next: nat)
    requires SourcesOk(so, |ws|) && Followed(ws, cs, ws1, cs1, so, src, nid, i) && next == i + 1
    requires RecEdge(ws, nid, i) ==>
              ws[nid].kind != Mixer && (ws[nid].kind == Selector ==> !Carrying(ws, so, src, nid, i))
    ensures Followed(ws, cs, ws1, cs1, so, src, nid, next)
  {
  }

  lemma OtherFollowed(ws: seq<Widget>, cs: seq<Control>, ws2: seq<Widget>, cs2: seq<Control>, so: Sources,
                      src: set<int>, nid: int, i: nat, next: nat)
    requires SourcesOk(so, |ws|) && RecFrame(ws, cs, ws2, cs2, so, src) && MixerDone(ws, cs, cs2, so, src, nid, i)
    requires RecEdge(ws, nid, i) && ws[nid].kind != Mixer && ws[nid].kind != Selector && next == i + 1
    ensures Followed(ws, cs, ws2, cs2, so, src, nid, next)
  {
  }

  lemma NodesReady(startNode: nat, ws: seq<Widget>, ws': seq<Widget>)
    requires SameNodes(ws, ws') && WidgetsReady(startNode, ws)
    ensures WidgetsReady(startNode, ws')
  {
    forall n | 0 <= n < |ws|
      ensures WidgetOk(ws'[n]) && ws'[n].enable == ws[n].enable && ws'[n].conns == ws[n].conns
      ensures forall i :: Enabled(ws'[n], i) <==> Enabled(ws[n], i)
    {
      assert SameNode(ws[n], ws'[n]) && WidgetOk(ws[n]);
    }
  }

  /** The tables are fit for the selection. */
  ghost predicate Fit(startNode: nat, ws: seq<Widget>, cs: seq<Control>, log: seq<Verb>, so: Sources)
  {
    WidgetsReady(startNode, ws) && ControlsReady(ws, cs) && CodecReady(startNode, ws, cs, log) && SourcesOk(so, |ws|)
  }

  lemma StaysFit(startNode: nat, ws: seq<Widget>, cs: seq<Control>, log: seq<Verb>, ws': seq<Widget>, cs': seq<Control>,
                 log': seq<Verb>, so: Sources, src: set<int>)
    requires Fit(startNode, ws, cs, log, so) && RecFrame(ws, cs, ws', cs', so, src)
    requires CodecReady(startNode, ws', cs', log')
    ensures Fit(startNode, ws', cs', log', so)
  {
    NodesReady(startNode, ws, ws');
    SameControlsReady(ws, cs, ws', cs');
  }

  // ----- audioCtlRecSelComm -----

  /** The call for nid has followed its first i connections and found res. */
  ghost predicate Following(ws: seq<Widget>, cs: seq<Control>, ws': seq<Widget>, cs': seq<Control>, so: Sources,
                            src: set<int>, nid: int, depth: nat, i: nat, res: set<int>)
    requires SourcesOk(so, |ws|)
  {
    && depth <= MAX_DEPTH && Live(ws, nid) && Followed(ws, cs, ws', cs', so, src, nid, i)
    && BelowDone(ws, cs, ws', cs', so, src, nid, depth, i)
    && res == SourcesBelow(ws, so, src, nid, depth, i)
  }

  lemma FollowingStarts(ws: seq<Widget>, cs: seq<Control>, so: Sources, src: set<int>, nid: int, depth: nat)
    requires SourcesOk(so, |ws|) && depth <= MAX_DEPTH && Live(ws, nid)
    ensures Following(ws, cs, ws, cs, so, src, nid, depth, 0, {})
  {
    NothingSelected(ws, cs, so, src, nid);
  }

  /** A selector that has been moved ends the loop: nothing more is to be done. */
  lemma FollowingStops(ws: seq<Widget>, cs: seq<Control>, ws': seq<Widget>, cs': seq<Control>, so: Sources,
                       src: set<int>, nid: int, depth: nat, i: nat, n: nat, res: set<int>)
    requires SourcesOk(so, |ws|) && Following(ws, cs, ws', cs', so, src, nid, depth, i, res) && i <= n
    requires ws[nid].kind == Selector && FirstCarrying(ws, so, src, nid, i) != -1
    ensures Following(ws, cs, ws', cs', so, src, nid, depth, n, res)
  {
    FirstStays(ws, so, src, nid, i, n);
    StoppedSources(ws, so, src, nid, depth, i, n);
    forall k | i <= k < n ensures !Descends(ws, so, src, nid, k) {
      FirstStays(ws, so, src, nid, i, k);
    }
  }

  lemma {:induction false} StoppedSources(ws: seq<Widget>, so: Sources, src: set<int>, nid: int, depth: nat, i: nat,
                                          n: nat)
    requires SourcesOk(so, |ws|) && depth <= MAX_DEPTH && Live(ws, nid) && i <= n
    requires ws[nid].kind == Selector && FirstCarrying(ws, so, src, nid, i) != -1
    ensures SourcesBelow(ws, so, src, nid, depth, n) == SourcesBelow(ws, so, src, nid, depth, i)
  {
    if i < n {
      StoppedSources(ws, so, src, nid, depth, i, n - 1);
      FirstStays(ws, so, src, nid, i, n - 1);
    }
  }

  lemma FollowingDone(ws: seq<Widget>, cs: seq<Control>, ws': seq<Widget>, cs': seq<Control>, so: Sources,
                      src: set<int>, nid: int, depth: nat, res: set<int>)
    requires SourcesOk(so, |ws|) && Live(ws, nid)
    requires Following(ws, cs, ws', cs', so, src, nid, depth, |ws[nid].conns|, res)
    ensures RecSelected(ws, cs, ws', cs', so, src, nid, depth) && res == SourcesFrom(ws, so, src, nid, depth)
  {
    CallDone(ws, cs, ws', cs', so, src, nid, depth);
  }

  /** Commutates the paths to widget nid to the sources of src; answers the
      sources found. */
  method AudioCtlRecSelComm(fg: FunctionGroup, link: CodecLink, so: Sources, src: set<int>, nid: int, depth: nat)
    returns (res: set<int>)
    requires Fit(fg.startNode, fg.widgets[..], fg.controls[..], link.log, so)
    modifies fg.widgets, fg.controls, link
    ensures RecSelected(old(fg.widgets[..]), old(fg.controls[..]), fg.widgets[..], fg.controls[..], so, src, nid, depth)
    ensures res == SourcesFrom(old(fg.widgets[..]), so, src, nid, depth)
    ensures CodecReady(fg.startNode, fg.widgets[..], fg.controls[..], link.log)
    decreases MAX_DEPTH + 1 - depth, 1
  {
    res := {};
    if depth > MAX_DEPTH {
      return;
    }
    if !(fg.startNode <= nid < fg.widgets.Length && fg.widgets[nid].enable) {
      return;
    }
    ghost var ws, cs := fg.widgets[..], fg.controls[..];
    res := FollowConnections(fg, link, so, src, nid, depth);
    FollowingDone(ws, cs, fg.widgets[..], fg.controls[..], so, src, nid, depth, res);
  }

  /** The loop over the connections of widget nid. */
  method FollowConnections(fg: FunctionGroup, link: CodecLink, so: Sources, src: set<int>, nid: nat, depth: nat)
    returns (res: set<int>)
    requires Fit(fg.startNode, fg.widgets[..], fg.controls[..], link.log, so) && depth <= MAX_DEPTH
    requires Live(fg.widgets[..], nid)
    modifies fg.widgets, fg.controls, link
    ensures Following(old(fg.widgets[..]), old(fg.controls[..]), fg.widgets[..], fg.controls[..], so, src, nid, depth,
                      |old(fg.widgets[nid]).conns|, res)
    ensures CodecReady(fg.startNode, fg.widgets[..], fg.controls[..], link.log)
    decreases MAX_DEPTH + 1 - depth, 0, 2
  {
    ghost var ws, cs, log := fg.widgets[..], fg.controls[..], link.log;
    FollowingStarts(ws, cs, so, src, nid, depth);
    res := {};
    var n := |fg.widgets[nid].conns|;
    var i, stop := 0, false;
    while i < n && !stop
      invariant 0 <= i <= n == |ws[nid].conns|
      invariant Following(ws, cs, fg.widgets[..], fg.controls[..], so, src, nid, depth, i, res)
      invariant CodecReady(fg.startNode, fg.widgets[..], fg.controls[..], link.log)
      invariant ws[nid].kind == Selector ==> stop == (FirstCarrying(ws, so, src, nid, i) != -1)
      invariant stop ==> ws[nid].kind == Selector
    {
      res, stop := FollowConnection(fg, link, so, src, nid, i, depth, res, ws, cs, log);
      i := i + 1;
    }
    if stop {
      FollowingStops(ws, cs, fg.widgets[..], fg.controls[..], so, src, nid, depth, i, n, res);
    }
  }

  /** Connection i of widget nid; stop when a selector has been moved. */
  method FollowConnection(fg: FunctionGroup, link: CodecLink, so: Sources, src: set<int>, nid: nat, i: nat, depth: nat,
                          found: set<int>, ghost ws: seq<Widget>, ghost cs: seq<Control>, ghost log: seq<Verb>)
    returns (res: set<int>, stop: bool)
    requires Fit(fg.startNode, ws, cs, log, so) && Live(ws, nid) && i < |ws[nid].conns|
    requires Following(ws, cs, fg.widgets[..], fg.controls[..], so, src, nid, depth, i, found)
    requires CodecReady(fg.startNode, fg.widgets[..], fg.controls[..], link.log)
    requires ws[nid].kind == Selector ==> FirstCarrying(ws, so, src, nid, i) == -1
    modifies fg.widgets, fg.controls, link
    ensures Following(ws, cs, fg.widgets[..], fg.controls[..], so, src, nid, depth, i + 1, res)
    ensures CodecReady(fg.startNode, fg.widgets[..], fg.controls[..], link.log)
    ensures stop == (ws[nid].kind == Selector && FirstCarrying(ws, so, src, nid, i + 1) != -1)
    decreases MAX_DEPTH + 1 - depth, 0, 1
  {
    ghost var ws1, cs1, next := fg.widgets[..], fg.controls[..], i + 1;
    RecEdgeStays(ws, ws1, nid, i);
    StaysFit(fg.startNode, ws, cs, log, ws1, cs1, link.log, so, src);
    var follows := Follows(fg, nid, i);
    res, stop := found, false;
    if !follows {
      EdgeSkipped(ws, cs, ws1, cs1, so, src, nid, i, next);
      BelowDoneNext(ws, cs, ws1, cs1, ws1, cs1, so, src, nid, depth, i, next);
      return;
    }
    var child := fg.widgets[nid].conns[i];
    var carries := Shares(src, so.masks[child]);
    var more := FollowChild(fg, link, so, src, child, depth, carries, ws);
    res := res + more;
    ghost var ws2, cs2 := fg.widgets[..], fg.controls[..];
    FollowedAny(ws, cs, ws1, cs1, ws2, cs2, so, src, nid, i, carries);
    BelowDoneNext(ws, cs, ws1, cs1, ws2, cs2, so, src, nid, depth, i, next);
    stop := CommutateInput(fg, link, so, src, nid, i, carries, ws, cs, log);
    BelowStaysDone(ws, cs, ws2, cs2, fg.widgets[..], fg.controls[..], so, src, nid, depth, next);
  }

  /** The paths below a connection that carries a requested source. */
  method FollowChild(fg: FunctionGroup, link: CodecLink, so: Sources, src: set<int>, child: nat, depth: nat,
                     carries: bool, ghost ws: seq<Widget>) returns (res: set<int>)
    requires Fit(fg.startNode, fg.widgets[..], fg.controls[..], link.log, so) && depth <= MAX_DEPTH
    requires SameNodes(ws, fg.widgets[..]) && Live(ws, child)
    modifies fg.widgets, fg.controls, link
    ensures if carries && so.devs[child] < 0
            then RecSelected(old(fg.widgets[..]), old(fg.controls[..]), fg.widgets[..], fg.controls[..], so, src,
                             child, depth + 1)
            else fg.widgets[..] == old(fg.widgets[..]) && fg.controls[..] == old(fg.controls[..])
    ensures res == if carries then SourcesBehind(ws, so, src, child, depth) else {}
    ensures CodecReady(fg.startNode, fg.widgets[..], fg.controls[..], link.log)
    decreases MAX_DEPTH + 1 - depth, 0, 0
  {
    res := {};
    if carries {
      if so.devs[child] < 0 {
        SameSources(ws, fg.widgets[..], so, src, child, depth + 1);
        res := AudioCtlRecSelComm(fg, link, so, src, child, depth + 1);
      } else {
        res := so.masks[child];
      }
    }
  }

  lemma FollowedAny(ws: seq<Widget>, cs: seq<Control>, ws1: seq<Widget>, cs1: seq<Control>, ws2: seq<Widget>,
                    cs2: seq<Control>, so: Sources, src: set<int>, nid: int, i: nat, carries: bool)
    requires SourcesOk(so, |ws|) && Followed(ws, cs, ws1, cs1, so, src, nid, i)
    requires if carries then RecFrame(ws1, cs1, ws2, cs2, so, src) || (ws2 == ws1 && cs2 == cs1)
             else ws2 == ws1 && cs2 == cs1
    ensures RecFrame(ws, cs, ws2, cs2, so, src) && MixerDone(ws, cs, cs2, so, src, nid, i)
    ensures !carries ==> Followed(ws, cs, ws2, cs2, so, src, nid, i)
  {
    if carries && !(ws2 == ws1 && cs2 == cs1) {
      FollowedBelow(ws, cs, ws1, cs1, ws2, cs2, so, src, nid, i);
    }
  }

  method Follows(fg: FunctionGroup, nid: nat, i: nat) returns (follows: bool)
    requires WidgetsReady(fg.startNode, fg.widgets[..]) && Live(fg.widgets[..], nid) && i < |fg.widgets[nid].conns|
    ensures follows <==> RecEdge(fg.widgets[..], nid, i)
  {
    assert WidgetOk(fg.widgets[nid]);
    if !fg.widgets[nid].connsenable[i] {
      return false;
    }
    var child := fg.widgets[nid].conns[i];
    return fg.startNode <= child < fg.widgets.Length && fg.widgets[child].enable && fg.widgets[child].bindAssoc != -1;
  }

  /** The mixer or selector itself. */
  method CommutateInput(fg: FunctionGroup, link: CodecLink, so: Sources, src: set<int>, nid: nat, i: nat, carries: bool,
                        ghost ws: seq<Widget>, ghost cs: seq<Control>, ghost log: seq<Verb>) returns (stop: bool)
    requires Fit(fg.startNode, ws, cs, log, so) && RecEdge(ws, nid, i) && carries == Carrying(ws, so, src, nid, i)
    requires RecFrame(ws, cs, fg.widgets[..], fg.controls[..], so, src)
    requires MixerDone(ws, cs, fg.controls[..], so, src, nid, i)
    requires !carries ==> Followed(ws, cs, fg.widgets[..], fg.controls[..], so, src, nid, i)
    requires CodecReady(fg.startNode, fg.widgets[..], fg.controls[..], link.log)
    requires ws[nid].kind == Selector ==> FirstCarrying(ws, so, src, nid, i) == -1
    modifies fg.widgets, fg.controls, link
    ensures Followed(ws, cs, fg.widgets[..], fg.controls[..], so, src, nid, i + 1)
    ensures RecFrame(old(fg.widgets[..]), old(fg.controls[..]), fg.widgets[..], fg.controls[..], so, src)
    ensures CodecReady(fg.startNode, fg.widgets[..], fg.controls[..], link.log)
    ensures stop == (ws[nid].kind == Selector && carries)
  {
    ghost var ws2, cs2, next := fg.widgets[..], fg.controls[..], i + 1;
    StaysFit(fg.startNode, ws, cs, log, ws2, cs2, link.log, so, src);
    RecEdgeStays(ws, ws2, nid, i);
    var kind := fg.widgets[nid].kind;
    stop := false;
    if kind == Mixer {
      EnableWidget(fg, link, nid, i, carries, cs);
      MixerFollowed(ws, cs, ws2, cs2, fg.controls[..], so, src, nid, i, next);
    } else if kind == Selector {
      if !carries {
        EdgeSkipped(ws, cs, ws2, cs2, so, src, nid, i, next);
      } else {
        EnableWidget(fg, link, nid, i, true, cs);
        SelectorFollowed(ws, cs, ws2, cs2, fg.widgets[..], so, src, nid, i, next);
        stop := true;
      }
    } else {
      OtherFollowed(ws, cs, ws2, cs2, so, src, nid, i, next);
    }
  }

  /** Disabled controls stay as they are, and their amplifiers as the commit
      left them. */
  lemma SelectionSilent(startNode: nat, ws: seq<Widget>, cs: seq<Control>, ws': seq<Widget>, cs': seq<Control>,
                        log': seq<Verb>, so: Sources, src: set<int>, nid: int, depth: nat)
    requires SourcesOk(so, |ws|) && RecSelected(ws, cs, ws', cs', so, src, nid, depth) && DisabledSilent(cs)
    requires CodecReady(startNode, ws', cs', log')
    ensures DisabledSilent(cs') && forall c :: 0 <= c < |cs| && !cs[c].enable ==> cs'[c] == cs[c]
    ensures forall c :: 0 <= c < |cs| && !cs[c].enable ==>
              ((forall right :: AmpOfControl(log', cs[c], right) == Amp(true, 0)) <==> !PassesAudio(ws, cs[c]))
  {
    forall c | 0 <= c < |cs| ensures SameControl(cs[c], cs'[c]) {
    }
    forall c | 0 <= c < |cs| && !cs[c].enable
      ensures (forall right :: AmpOfControl(log', cs[c], right) == Amp(true, 0)) <==> !PassesAudio(ws, cs[c])
    {
      DisabledAmpSilent(startNode, ws', cs', log', c);
      if cs[c].widget < |ws| {
        assert SameNode(ws[cs[c].widget], ws'[cs[c].widget]);
      }
    }
  }
}
