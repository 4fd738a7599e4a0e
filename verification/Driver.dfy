/** The life of a function group: parse, bind channels, prepare the pins, commit
    to the codec, create the PCM devices, and follow the jacks. */
module Driver {
  import opened HdaGraph
  import opened Configuration
  import opened OutputAssociation
  import opened MonitorTrace
  import opened TreeBuilder
  import opened ParsePipeline
  import opened Amplifiers
  import opened CodecCommit
  import opened JackSwitch
  import opened MicSwitch
  import opened SwitchPoll
  import opened PcmDevices
  import Parser = AssociationParser
  import Facts = AssociationFacts

  // ----- A parsed function group is fit for jack events -----

  lemma ParsedWidgetsReady(startNode: nat, g: Parse)
    requires Parsed(startNode, g) && ConfigOk(startNode, g.pruned)
    ensures WidgetsReady(startNode, g.pruned.ws)
  {
    var ws := g.pruned.ws;
    forall n, i | 0 <= n < |ws| && Enabled(ws[n], i) && ws[n].enable ensures 0 <= ws[n].conns[i] < |ws| {
      assert Live(ws, n);
      assert Live(ws, ws[n].conns[i]);
    }
  }

  /** The pins of an enabled association are bound to it. */
  lemma PinBound(startNode: nat, g: Parse, a: nat, s: nat)
    requires Parsed(startNode, g) && BeepsHaveNoInputs(g.start.ws)
    requires a < |g.assocs| && g.assocs[a].enable && s < PINS && AssocOk(g.assocs[a]) && g.assocs[a].pins[s] != 0
    ensures 0 <= g.assocs[a].pins[s] < |g.pruned.ws| && g.pruned.ws[g.assocs[a].pins[s]].bindAssoc == a
  {
    AssocBuilt(startNode, g, a);
    var asc, ws := g.assocs[a], g.tree.ws;
    var pin := asc.pins[s];
    if asc.dir == Out {
      assert PinRouted(ws, asc, a, s, Acyclic(g.prepared.ws));
    } else {
      var w :| LiveWalk(ws, w, a, s) && w[0] == pin && w[|w| - 1] == asc.dacs[s];
    }
    assert ws[pin].bindAssoc == a;
    assert PrunedWidget(ws[pin], g.pruned.ws[pin]);
  }

  lemma PinsBound(startNode: nat, g: Parse)
    requires Parsed(startNode, g) && BeepsHaveNoInputs(g.start.ws)
    ensures var ws, assocs := g.pruned.ws, g.assocs;
            forall a, q :: 0 <= a < |assocs| && assocs[a].enable && PinOf(assocs[a].pins, q) && 0 <= q < |ws| ==>
              ws[q].bindAssoc == a
  {
    forall a, q | 0 <= a < |g.assocs| && g.assocs[a].enable && PinOf(g.assocs[a].pins, q) && 0 <= q < |g.pruned.ws|
      ensures g.pruned.ws[q].bindAssoc == a
    {
      var s :| 0 <= s < |g.assocs[a].pins| && g.assocs[a].pins[s] == q;
      PinBound(startNode, g, a, s);
    }
  }

  lemma DefaultPins(startNode: nat, g: Parse)
    requires Parsed(startNode, g)
    ensures forall a :: 0 <= a < |g.assocs| && g.assocs[a].hpredir >= 0 ==>
              && 0 <= g.assocs[a].defaultPin < PINS && |g.assocs[a].pins| == PINS
              && 0 <= g.assocs[a].pins[g.assocs[a].defaultPin] < |g.pruned.ws|
  {
    forall a | 0 <= a < |g.assocs| && g.assocs[a].hpredir >= 0
      ensures 0 <= g.assocs[a].defaultPin < PINS && |g.assocs[a].pins| == PINS
      ensures 0 <= g.assocs[a].pins[g.assocs[a].defaultPin] < |g.pruned.ws|
    {
      DefaultPinThere(g.prepared.ws, g.table, a);
    }
  }

  lemma ParsedAssocsReady(startNode: nat, g: Parse)
    requires Parsed(startNode, g) && BeepsHaveNoInputs(g.start.ws)
    ensures AssocsReady(g.pruned.ws, g.assocs)
  {
    PinsBound(startNode, g);
    DefaultPins(startNode, g);
    forall n | Live(g.pruned.ws, n) && g.pruned.ws[n].kind == PinComplex
      ensures 0 <= g.pruned.ws[n].bindAssoc < |g.assocs| && g.assocs[g.pruned.ws[n].bindAssoc].enable
    {
      BindingsSafe(startNode, g, n);
    }
  }

  lemma DefaultPinThere(ws: seq<Widget>, as0: seq<Assoc>, a: nat)
    requires !Live(ws, 0) && Parser.Table(ws, as0, Parser.LAST + 1) && a < |as0| && as0[a].hpredir >= 0
    ensures AssocOk(as0[a]) && 0 <= as0[a].defaultPin < PINS && 0 <= as0[a].pins[as0[a].defaultPin] < |ws|
  {
    Facts.TableMeaning(ws, as0);
    assert Facts.OwnRecord(ws, as0[a]);
  }

  lemma ParsedControlsReady(startNode: nat, g: Parse)
    requires Parsed(startNode, g) && ConfigOk(startNode, g.pruned)
    requires AllInRange(g.start.cs) && DistinctAmps(g.start.cs)
    ensures ControlsReady(g.pruned.ws, g.pruned.cs)
  {
    ControlsKept(startNode, g);
    KeptReady(g.pruned.ws, g.start.cs, g.pruned.cs);
  }

  lemma KeptReady(ws: seq<Widget>, cs0: seq<Control>, cs: seq<Control>)
    requires AllInRange(cs0) && DistinctAmps(cs0) && |cs| == |cs0|
    requires forall c :: 0 <= c < |cs| ==> ControlOk(ws, cs[c]) && (cs[c] == cs0[c] || cs[c] == Silenced(cs0[c]))
    ensures ControlsReady(ws, cs)
  {
    forall c | 0 <= c < |cs| ensures LevelsInRange(cs[c]) && cs[c].widget < |ws| {
      assert LevelsInRange(cs0[c]) && ControlOk(ws, cs[c]);
    }
    forall c, d | 0 <= c < d < |cs| ensures !SameAmp(cs[c], cs[d]) {
      assert !SameAmp(cs0[c], cs0[d]);
    }
  }

  // ----- Channels -----

  lemma {:induction false} DigitalBelow(ws: seq<Widget>, j: int, lo: int, i: int)
    requires forall n :: 0 <= n < |ws| ==> ws[n].digitalCap < UNCLAIMED
    ensures Parser.DigitalKind(ws, j, lo, i) < UNCLAIMED
    decreases i - lo
  {
    if lo < i {
      DigitalBelow(ws, j, lo, i - 1);
    }
  }

  lemma TableDigital(ws: seq<Widget>, as0: seq<Assoc>, a: nat)
    requires !Live(ws, 0) && Parser.Table(ws, as0, Parser.LAST + 1) && a < |as0|
    requires forall n :: 0 <= n < |ws| ==> ws[n].digitalCap < UNCLAIMED
    ensures as0[a].digital < UNCLAIMED
  {
    if a < Parser.SlotsBelow(ws, Parser.LAST) {
      Facts.SlotOwner(ws, a, Parser.LAST);
      var k :| 1 <= k < Parser.LAST && Parser.PinCount(ws, k, 0, |ws|) > 0 && Parser.SlotsBelow(ws, k) == a;
      assert Parser.SharedAt(ws, as0, k);
      DigitalBelow(ws, k, 0, |ws|);
    } else {
      var base := Parser.SlotsBelow(ws, Parser.LAST);
      assert Parser.SlotsBelow(ws, Parser.LAST + 1) == base + Parser.PinCount(ws, Parser.LAST, 0, |ws|);
      Facts.SinglePin(ws, a - base, |ws|);
      var n :| 0 <= n < |ws| && Parser.InAssoc(ws, Parser.LAST, n)
          && Parser.PinCount(ws, Parser.LAST, 0, n) == a - base;
      assert Parser.SingleAt(ws, as0, base, n);
      DigitalBelow(ws, Parser.LAST, n, n + 1);
    }
  }

  lemma ParsedDigital(startNode: nat, g: Parse)
    requires Parsed(startNode, g)
    requires forall n :: 0 <= n < |g.start.ws| ==> g.start.ws[n].digitalCap < UNCLAIMED
    ensures forall a :: 0 <= a < |g.assocs| ==> g.assocs[a].digital != UNCLAIMED
  {
    var ws := g.prepared.ws;
    PreparedPruned(g.start, g.prepared);
    forall n | 0 <= n < |ws| ensures ws[n].digitalCap < UNCLAIMED {
      assert PrunedWidget(g.start.ws[n].(config := ws[n].config), ws[n]);
    }
    forall a | 0 <= a < |g.assocs| ensures g.assocs[a].digital != UNCLAIMED {
      TableDigital(ws, g.table, a);
      assert TracedFrom(g.table[a], g.assocs[a]);
    }
  }

  /** Only the channel numbers of the associations differ. */
  predicate OnlyChannels(assocs: seq<Assoc>, assocs': seq<Assoc>)
  {
    |assocs'| == |assocs| && forall a :: 0 <= a < |assocs| ==> assocs'[a] == assocs[a].(chan := assocs'[a].chan)
  }

  lemma BoundOnlyChannels(as0: seq<Assoc>, as1: seq<Assoc>, chs0: seq<Channel>, chs1: seq<Channel>)
    requires ChannelsBound(as0, as1, chs0, chs1, |as0|)
    ensures OnlyChannels(as0, as1)
  {
    forall a | 0 <= a < |as0| ensures as1[a] == as0[a].(chan := as1[a].chan) {
      assert as1[a] == WithChannel(as0, |chs0|, a);
    }
  }

  /** The enabled associations do not exceed the channels, and need a device. */
  predicate Creatable(assocs: seq<Assoc>, assocs': seq<Assoc>)
  {
    EnabledBelow(assocs, |assocs|) <= MAX_CHANNELS && NumPcmDevices(assocs') > 0
  }

  /** Channels have been bound, and if they suffice and there is a device to
      create every enabled association sits in the device its channel names, and
      no device is shared, mixed or empty. */
  ghost predicate ChannelsMade(assocs: seq<Assoc>, assocs': seq<Assoc>, devices: seq<PcmDevice>,
                               channels: seq<Channel>, created: bool)
  {
    && OnlyChannels(assocs, assocs') && (created <==> Creatable(assocs, assocs'))
    && (created ==> PcmsCreated(assocs', devices, channels))
  }

  /** Binding the channels and creating the devices. */
  method BindAndCreate(fg: FunctionGroup, tables: PcmTables) returns (ok: bool)
    requires forall a :: 0 <= a < fg.assocs.Length ==> fg.assocs[a].digital != UNCLAIMED
    modifies fg.assocs, tables
    ensures ChannelsMade(old(fg.assocs[..]), fg.assocs[..], tables.devices[..], tables.channels[..], ok)
  {
    ghost var as0, chs0 := fg.assocs[..], tables.channels[..];
    ok := AudioBindAssociation(fg, tables);
    if ok {
      BoundChannelsOk(as0, fg.assocs[..], chs0, tables.channels[..]);
      BoundOnlyChannels(as0, fg.assocs[..], chs0, tables.channels[..]);
      ok := CreatePcms(fg, tables);
    }
  }

  lemma ChannelsReady(ws: seq<Widget>, assocs: seq<Assoc>, assocs': seq<Assoc>)
    requires AssocsReady(ws, assocs) && OnlyChannels(assocs, assocs')
    ensures AssocsReady(ws, assocs')
  {
  }

  // ----- Pin control words -----

  function WithCtrls(ws: seq<Widget>, ctrls: seq<bv32>): (ws': seq<Widget>)
    ensures |ws'| == |ws|
  {
    seq(|ws|, n requires 0 <= n < |ws| => if n < |ctrls| then ws[n].(ctrl := ctrls[n]) else ws[n])
  }

  /** audioPreparePinCtrl, which chooses the control words from the pins'
      capabilities; here any words. */
  method PreparePinCtrl(fg: FunctionGroup, ctrls: seq<bv32>)
    requires |ctrls| == fg.widgets.Length
    modifies fg.widgets
    ensures fg.widgets[..] == WithCtrls(old(fg.widgets[..]), ctrls)
  {
    ghost var ws := fg.widgets[..];
    var i := 0;
    while i < fg.widgets.Length
      invariant 0 <= i <= fg.widgets.Length
      invariant forall n :: 0 <= n < i ==> fg.widgets[n] == ws[n].(ctrl := ctrls[n])
      invariant forall n :: i <= n < fg.widgets.Length ==> fg.widgets[n] == ws[n]
    {
      fg.widgets[i] := fg.widgets[i].(ctrl := ctrls[i]);
      i := i + 1;
    }
  }

  // ----- Commit and jacks -----

  /** The tables before the commit: what the parse leaves, with any control
      words. */
  ghost predicate Committable(startNode: nat, ws: seq<Widget>, cs: seq<Control>, assocs: seq<Assoc>)
  {
    && WidgetsReady(startNode, ws) && ControlsReady(ws, cs) && AssocsReady(ws, assocs)
    && ConfigOk(startNode, Config(ws, cs))
  }

  lemma CommittedReady(startNode: nat, ws: seq<Widget>, cs: seq<Control>, ws': seq<Widget>, cs': seq<Control>,
                       assocs: seq<Assoc>, oss: seq<bool>, log: seq<Verb>)
    requires Committable(startNode, ws, cs, assocs) && |ws'| == |ws| && |cs'| == |cs| == |oss|
    requires forall n :: 0 <= n < |ws| ==> ws'[n] == if n < startNode then ws[n] else Decided(ws[n])
    requires forall c :: 0 <= c < |cs| ==> cs'[c] == Committed(cs[c], oss[c])
    requires CodecReady(startNode, ws', cs', log)
    ensures JackReady(startNode, ws', cs', assocs, log)
  {
    assert SameNodes(ws, ws');
    SameNodesReady(startNode, ws, ws', assocs);
    CommittedInRange(cs, cs', oss);
  }

  /** Commits the tables to the codec and follows the jacks over a run of polls. */
  method CommitAndFollow(fg: FunctionGroup, link: CodecLink, oss: seq<bool>, polls: seq<seq<bool>>)
    returns (ghost ws: seq<Widget>, ghost cs: seq<Control>, ghost log: seq<Verb>, ghost last: seq<int>)
    requires Committable(fg.startNode, fg.widgets[..], fg.controls[..], fg.assocs[..])
    requires |oss| == fg.controls.Length && forall j :: 0 <= j < |polls| ==> |polls[j]| == fg.widgets.Length
    modifies fg.widgets, fg.controls, link
    ensures CodecReady(fg.startNode, ws, cs, log)
    ensures AmpsCommitted(old(fg.widgets[..]), old(fg.controls[..]), cs, oss, log)
    ensures NodesCommitted(fg.startNode, old(fg.widgets[..]), ws, log)
    ensures RunState(fg.startNode, ws, cs, fg.widgets[..], fg.controls[..], link.log, fg.assocs[..], polls, last,
                     |polls|)
  {
    ghost var ws0, cs0 := fg.widgets[..], fg.controls[..];
    AudioCommit(fg, link, oss);
    ws, cs, log := fg.widgets[..], fg.controls[..], link.log;
    CommittedReady(fg.startNode, ws0, cs0, ws, cs, fg.assocs[..], oss, log);
    last := RunPolls(fg, link, polls);
  }

  /** What the parse leaves can be bound and committed. */
  lemma ParsedCommittable(startNode: nat, g: Parse)
    requires Parsed(startNode, g) && ConfigOk(startNode, g.pruned)
    requires BeepsHaveNoInputs(g.start.ws) && AllInRange(g.start.cs) && DistinctAmps(g.start.cs)
    requires forall n :: 0 <= n < |g.start.ws| ==> g.start.ws[n].digitalCap < UNCLAIMED
    ensures Committable(startNode, g.pruned.ws, g.pruned.cs, g.assocs)
    ensures forall a :: 0 <= a < |g.assocs| ==> g.assocs[a].digital != UNCLAIMED
  {
    ParsedWidgetsReady(startNode, g);
    ParsedAssocsReady(startNode, g);
    ParsedControlsReady(startNode, g);
    ParsedDigital(startNode, g);
  }

  lemma BoundCommittable(startNode: nat, ws: seq<Widget>, ws': seq<Widget>, cs: seq<Control>, assocs: seq<Assoc>,
                         assocs': seq<Assoc>)
    requires Committable(startNode, ws, cs, assocs) && OnlyChannels(assocs, assocs') && |ws'| == |ws|
    requires forall n :: 0 <= n < |ws| ==> ws'[n] == ws[n].(ctrl := ws'[n].ctrl)
    ensures Committable(startNode, ws', cs, assocs')
  {
    ChannelsReady(ws, assocs, assocs');
    assert SameNodes(ws, ws');
    SameNodesReady(startNode, ws, ws', assocs');
    SameConnections(startNode, Config(ws, cs), Config(ws', cs));
  }

  /** Channels, devices and control words for what the parse has left. */
  method BindParsed(fg: FunctionGroup, tables: PcmTables, ctrls: seq<bv32>) returns (created: bool)
    requires Committable(fg.startNode, fg.widgets[..], fg.controls[..], fg.assocs[..])
    requires forall a :: 0 <= a < fg.assocs.Length ==> fg.assocs[a].digital != UNCLAIMED
    requires |ctrls| == fg.widgets.Length
    modifies fg.widgets, fg.assocs, tables
    ensures ChannelsMade(old(fg.assocs[..]), fg.assocs[..], tables.devices[..], tables.channels[..], created)
    ensures Committable(fg.startNode, fg.widgets[..], fg.controls[..], fg.assocs[..])
    ensures fg.widgets[..] == WithCtrls(old(fg.widgets[..]), ctrls)
  {
    ghost var ws, assocs := fg.widgets[..], fg.assocs[..];
    created := BindAndCreate(fg, tables);
    PreparePinCtrl(fg, ctrls);
    BoundCommittable(fg.startNode, ws, fg.widgets[..], fg.controls[..], assocs, fg.assocs[..]);
  }

  method ParseOnly(fg: FunctionGroup, adjusted: seq<nat>) returns (ghost g: Parse)
    requires ConfigOk(fg.startNode, ConfigOf(fg)) && Untraced(fg.widgets[..]) && fg.assocs.Length == 0
    requires Adjusts(fg.widgets[..], adjusted)
    modifies fg, fg.widgets, fg.controls, fg.assocs
    ensures Parsed(fg.startNode, g) && ConfigOk(fg.startNode, g.pruned) && g.start == old(ConfigOf(fg))
    ensures g.pruned == ConfigOf(fg) && g.assocs == fg.assocs[..]
    ensures fresh(fg.assocs) || fg.assocs == old(fg.assocs)
  {
    var ok;
    ghost var ps;
    ok, g, ps := ParseAudioGroup(fg, adjusted);
  }

  /** The parse, whose result can be bound and committed. */
  method ParseGroup(fg: FunctionGroup, adjusted: seq<nat>) returns (ghost g: Parse)
    requires ConfigOk(fg.startNode, ConfigOf(fg)) && Untraced(fg.widgets[..]) && fg.assocs.Length == 0
    requires Adjusts(fg.widgets[..], adjusted) && BeepsHaveNoInputs(fg.widgets[..])
    requires AllInRange(fg.controls[..]) && DistinctAmps(fg.controls[..])
    requires forall n :: 0 <= n < fg.widgets.Length ==> fg.widgets[n].digitalCap < UNCLAIMED
    modifies fg, fg.widgets, fg.controls, fg.assocs
    ensures Parsed(fg.startNode, g) && g.start == old(ConfigOf(fg))
    ensures g.pruned == ConfigOf(fg) && g.assocs == fg.assocs[..]
    ensures Committable(fg.startNode, g.pruned.ws, g.pruned.cs, g.assocs)
    ensures forall a :: 0 <= a < |g.assocs| ==> g.assocs[a].digital != UNCLAIMED
    ensures fresh(fg.assocs) || fg.assocs == old(fg.assocs)
  {
    g := ParseOnly(fg, adjusted);
    ParsedCommittable(fg.startNode, g);
  }

  /** Parse, channels, devices and control words. */
  method ParseAndBind(fg: FunctionGroup, tables: PcmTables, adjusted: seq<nat>, ctrls: seq<bv32>)
    returns (created: bool, ghost g: Parse)
    requires ConfigOk(fg.startNode, ConfigOf(fg)) && Untraced(fg.widgets[..]) && fg.assocs.Length == 0
    requires Adjusts(fg.widgets[..], adjusted) && BeepsHaveNoInputs(fg.widgets[..])
    requires AllInRange(fg.controls[..]) && DistinctAmps(fg.controls[..])
    requires forall n :: 0 <= n < fg.widgets.Length ==> fg.widgets[n].digitalCap < UNCLAIMED
    requires |ctrls| == fg.widgets.Length
    modifies fg, fg.widgets, fg.controls, fg.assocs, tables
    ensures Parsed(fg.startNode, g) && g.start == old(ConfigOf(fg))
    ensures ChannelsMade(g.assocs, fg.assocs[..], tables.devices[..], tables.channels[..], created)
    ensures Committable(fg.startNode, fg.widgets[..], fg.controls[..], fg.assocs[..])
    ensures fg.controls[..] == g.pruned.cs && fg.widgets[..] == WithCtrls(g.pruned.ws, ctrls)
  {
    g := ParseGroup(fg, adjusted);
    assert fg.widgets[..] == g.pruned.ws && fg.controls[..] == g.pruned.cs;
    created := BindParsed(fg, tables, ctrls);
  }

  /** From the nodes as read to any run of jack polls: g is the parse, ws and cs
      are the tables after the commit. */
  method Launch(fg: FunctionGroup, link: CodecLink, tables: PcmTables, adjusted: seq<nat>, ctrls: seq<bv32>,
                oss: seq<bool>, polls: seq<seq<bool>>)
    returns (created: bool, ghost g: Parse, ghost ws: seq<Widget>, ghost cs: seq<Control>, ghost log: seq<Verb>,
             ghost last: seq<int>)
    requires ConfigOk(fg.startNode, ConfigOf(fg)) && Untraced(fg.widgets[..]) && fg.assocs.Length == 0
    requires Adjusts(fg.widgets[..], adjusted) && BeepsHaveNoInputs(fg.widgets[..])
    requires AllInRange(fg.controls[..]) && DistinctAmps(fg.controls[..])
    requires forall n :: 0 <= n < fg.widgets.Length ==> fg.widgets[n].digitalCap < UNCLAIMED
    requires |ctrls| == fg.widgets.Length && |oss| == fg.controls.Length
    requires forall j :: 0 <= j < |polls| ==> |polls[j]| == fg.widgets.Length
    modifies fg, fg.widgets, fg.controls, fg.assocs, link, tables
    ensures Parsed(fg.startNode, g) && g.start == old(ConfigOf(fg))
    ensures ChannelsMade(g.assocs, fg.assocs[..], tables.devices[..], tables.channels[..], created)
    ensures CodecReady(fg.startNode, ws, cs, log) && AmpsCommitted(g.pruned.ws, g.pruned.cs, cs, oss, log)
    ensures NodesCommitted(fg.startNode, WithCtrls(g.pruned.ws, ctrls), ws, log)
    ensures RunState(fg.startNode, ws, cs, fg.widgets[..], fg.controls[..], link.log, fg.assocs[..], polls, last,
                     |polls|)
  {
    created, g := ParseAndBind(fg, tables, adjusted, ctrls);
    ws, cs, log, last := CommitAndFollow(fg, link, oss, polls);
    AmpsWithCtrls(g.pruned.ws, ctrls, g.pruned.cs, cs, oss, log);
  }

  /** The control words do not matter to the amplifiers. */
  lemma AmpsWithCtrls(ws: seq<Widget>, ctrls: seq<bv32>, cs: seq<Control>, cs': seq<Control>, oss: seq<bool>,
                      log: seq<Verb>)
    requires AmpsCommitted(WithCtrls(ws, ctrls), cs, cs', oss, log)
    ensures AmpsCommitted(ws, cs, cs', oss, log)
  {
    forall c, right | 0 <= c < |cs| ensures AmpCommitted(ws, cs[c], cs'[c], oss[c], log, right) {
      assert AmpCommitted(WithCtrls(ws, ctrls), cs[c], cs'[c], oss[c], log, right);
    }
  }
}
