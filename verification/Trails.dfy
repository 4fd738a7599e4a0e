/** What the traces look for, said of paths in the widget records: the kinds,
    flags and bindings along a path of node ids, without the predicates the
    traces are written with. */
module Trails {
  import opened HdaGraph
  import opened OutputTrace
  import opened OutputAssociation
  import opened InputTrace
  import Monitor = MonitorTrace

  // ----- From a pin to a DAC -----

  /** Some enabled connection of w comes from node m, and no other is preset. */
  ghost predicate TakesFrom(w: Widget, m: int)
  {
    exists i :: 0 <= i < |w.conns| && i < |w.connsenable| && w.connsenable[i] && w.conns[i] == m
                && (w.selconn == -1 || w.selconn == i)
  }

  /** p runs from a widget at depth `depth` to a DAC from q.min on, the DAC to
      be shared if there is one: over at most ten hops, over enabled widgets that
      are bound to no other association and carry no pin but that to share with,
      and through no converter and no later pin complex. */
  ghost predicate PlaybackTrail(ws: seq<Widget>, q: Query, p: seq<int>, depth: nat)
  {
    && 1 <= |p| && depth + |p| <= 11
    && (forall k :: 0 <= k < |p| ==>
          && 0 <= p[k] < |ws| && ws[p[k]].enable
          && (ws[p[k]].bindAssoc < 0 || ws[p[k]].bindAssoc == q.assoc)
          && (ws[p[k]].bindSeqMask == {} || (q.dup >= 0 && q.dup in ws[p[k]].bindSeqMask)))
    && (forall k :: 0 <= k < |p| - 1 ==>
          && ws[p[k]].kind in {Mixer, Selector, PinComplex, PowerWidget, VolumeKnob, BeepGenerator, VendorDefined}
          && (ws[p[k]].kind == PinComplex ==> depth + k == 0)
          && TakesFrom(ws[p[k]], p[k + 1]))
    && ws[p[|p| - 1]].kind == AudioOutput && q.min <= p[|p| - 1]
    && (q.dup >= 0 ==> p[|p| - 1] == q.dupDac)
  }

  lemma {:induction false} TrailReaches(ws: seq<Widget>, q: Query, p: seq<int>, depth: nat)
    requires PlaybackTrail(ws, q, p, depth)
    ensures Reach(ws, q, p[0], p[|p| - 1], depth)
    decreases |p|
  {
    if |p| > 1 {
      var rest := p[1..];
      assert forall k :: 0 <= k < |rest| ==> rest[k] == p[k + 1];
      TrailReaches(ws, q, rest, depth + 1);
      assert TakesFrom(ws[p[0]], p[1]);
    }
  }

  lemma {:induction false} ReachHasTrail(ws: seq<Widget>, q: Query, n: int, d: int, depth: nat) returns (p: seq<int>)
    requires Reach(ws, q, n, d, depth)
    ensures PlaybackTrail(ws, q, p, depth) && p[0] == n && p[|p| - 1] == d
    decreases MAX_DEPTH + 1 - depth
  {
    if EndsAt(ws[n], q, n) && n == d {
      p := [n];
    } else {
      var i :| Usable(ws[n], i) && Reach(ws, q, ws[n].conns[i], d, depth + 1);
      var rest := ReachHasTrail(ws, q, ws[n].conns[i], d, depth + 1);
      p := [n] + rest;
      assert TakesFrom(ws[n], p[1]);
      assert forall k :: 0 < k < |p| ==> p[k] == rest[k - 1];
    }
  }

  /** A DAC can be reached from a pin exactly when there is such a path. */
  lemma ReachIff(ws: seq<Widget>, q: Query, n: int, d: int, depth: nat)
    ensures Reach(ws, q, n, d, depth) <==>
            exists p :: PlaybackTrail(ws, q, p, depth) && p[0] == n && p[|p| - 1] == d
  {
    if Reach(ws, q, n, d, depth) {
      var p := ReachHasTrail(ws, q, n, d, depth);
    }
    if p :| PlaybackTrail(ws, q, p, depth) && p[0] == n && p[|p| - 1] == d {
      TrailReaches(ws, q, p, depth);
    }
  }

  /** A DAC that can be reached has a first-choice route. */
  lemma {:induction false} ReachHasChoice(ws: seq<Widget>, q: Query, n: int, d: int, depth: nat) returns (r: Route)
    requires Reach(ws, q, n, d, depth)
    ensures IsRoute(ws, q, r, depth) && FirstChoice(ws, q, r, depth) && Source(r) == n && Target(r) == d
    decreases MAX_DEPTH + 1 - depth
  {
    if EndsAt(ws[n], q, n) && n == d {
      r := Dac(n);
    } else {
      var ways := set i | 0 <= i < |ws[n].conns| && Usable(ws[n], i) && Reach(ws, q, ws[n].conns[i], d, depth + 1);
      assert exists i :: i in ways by {
        var i :| Usable(ws[n], i) && Reach(ws, q, ws[n].conns[i], d, depth + 1);
        assert i in ways;
      }
      var i := Least(ways);
      var rest := ReachHasChoice(ws, q, ws[n].conns[i], d, depth + 1);
      forall k | 0 <= k < i && Usable(ws[n], k) ensures !Reach(ws, q, ws[n].conns[k], d, depth + 1) {
        assert k !in ways;
      }
      r := Via(n, i, rest);
    }
  }

  /** A walk is the first choice exactly when at each of its widgets no earlier
      connection that is enabled and not excluded by a preset leads to its DAC, and
      so on from the next widget. */
  lemma FirstChoiceIff(ws: seq<Widget>, q: Query, n: int, i: int, rest: Route, depth: nat)
    requires 0 <= n < |ws|
    ensures FirstChoice(ws, q, Via(n, i, rest), depth) <==>
            && FirstChoice(ws, q, rest, depth + 1)
            && forall k, p :: 0 <= k < i && k < |ws[n].conns| && k < |ws[n].connsenable| && ws[n].connsenable[k]
                              && (ws[n].selconn == -1 || ws[n].selconn == k)
                              && PlaybackTrail(ws, q, p, depth + 1) && p[0] == ws[n].conns[k] ==>
                 p[|p| - 1] != Target(rest)
  {
    forall k | 0 <= k < |ws[n].conns|
      ensures Reach(ws, q, ws[n].conns[k], Target(rest), depth + 1) <==>
              exists p :: PlaybackTrail(ws, q, p, depth + 1) && p[0] == ws[n].conns[k] && p[|p| - 1] == Target(rest)
    {
      ReachIff(ws, q, ws[n].conns[k], Target(rest), depth + 1);
    }
  }

  /** What the search asks for pin i: headphone redirection spelled out. */
  function PinQuery(asc: Assoc, a: nat, i: nat): Query
    requires AssocOk(asc) && asc.hpredir < PINS
  {
    var dup := if i == asc.jackPin && !asc.fakeredir then asc.hpredir else -1;
    Query(a, dup, if dup >= 0 then asc.dacs[dup] else 0, 0)
  }

  /** Pin i can be given DAC d exactly when there is a path, to the DAC of pin
      hpredir if the pin is the jack and redirection is real. */
  lemma ChoiceIff(ws: seq<Widget>, as0: seq<Assoc>, a: nat, i: nat, d: int)
    requires InRange(as0, a, i) && -1 <= as0[a].hpredir
    ensures (exists r :: Choice(ws, as0, a, i, r) && Target(r) == d) <==>
            exists p :: PlaybackTrail(ws, PinQuery(as0[a], a, i), p, 0) && p[0] == as0[a].pins[i] && p[|p| - 1] == d
  {
    var q, n := QueryOf(as0, a, SharedSeq(as0[a], i), 0), as0[a].pins[i];
    assert q == PinQuery(as0[a], a, i);
    ReachIff(ws, q, n, d, 0);
    if r :| Choice(ws, as0, a, i, r) && Target(r) == d {
      RouteReaches(ws, q, r, 0);
    }
    if Reach(ws, q, n, d, 0) {
      var r := ReachHasChoice(ws, q, n, d, 0);
      assert Choice(ws, as0, a, i, r);
    }
  }

  /** A live route runs by selected hops exactly when every selector on it, and
      every widget on it that has several inputs and is no mixer, has selected
      the hop that leaves it. */
  lemma {:induction false} SelectedIff(ws: seq<Widget>, r: Route, a: int, s: int)
    ensures LiveRoute(ws, r, a, s, true) <==>
            && LiveRoute(ws, r, a, s, false)
            && forall h :: h in Hops(r) && 0 <= h.0 < |ws|
                           && (ws[h.0].kind == Selector || (ws[h.0].kind != Mixer && |ws[h.0].conns| > 1)) ==>
                 ws[h.0].selconn == h.1
  {
    if r.Via? {
      SelectedIff(ws, r.rest, a, s);
      assert forall h :: h in Hops(r) <==> h == (r.nid, r.conn) || h in Hops(r.rest);
    }
  }

  /** What marking a walk does to a widget on it, by its kind. */
  lemma MarkedFields(ws: seq<Widget>, q: Query, r: Route, s: int, n: int)
    requires IsRoute(ws, q, r, 0) && n in Nodes(r)
    ensures 0 <= n < |ws|
    ensures var w, w' := ws[n], Mark(ws, r, q.assoc, s)[n];
            && w'.bindAssoc == q.assoc && w'.bindSeqMask == w.bindSeqMask + {s} && Out in w'.traceDir
            && (w.kind == AudioOutput || w.kind == Mixer || (w.kind != Selector && |w.conns| <= 1) ==>
                  w'.selconn == w.selconn)
            && (w.kind == Selector || (w.kind != Mixer && w.kind != AudioOutput && |w.conns| > 1) ==>
                  w'.selconn == LeavesBy(r, n) && (w.selconn == -1 || w.selconn == w'.selconn)
                  && 0 <= w'.selconn < |w.conns| && w'.selconn < |w.connsenable| && w.connsenable[w'.selconn])
  {
    RouteNodes(ws, q, r, 0);
  }

  // ----- From a pin to an ADC -----

  /** Some enabled connection of w comes from node m. */
  ghost predicate Feeds(w: Widget, m: int)
  {
    exists i :: 0 <= i < |w.conns| && i < |w.connsenable| && w.connsenable[i] && w.conns[i] == m
  }

  /** Hop k of p, whose first widget is at depth `depth`: not out of an audio
      input, nor of a later pin complex. */
  ghost predicate RecordingHop(ws: seq<Widget>, p: seq<int>, k: int, depth: nat)
  {
    && 0 <= k < |p| - 1 && 0 <= p[k] < |ws| && 0 <= p[k + 1] < |ws|
    && ws[p[k]].kind != AudioInput && (ws[p[k]].kind == PinComplex ==> depth + k == 0)
    && Feeds(ws[p[k + 1]], p[k])
  }

  /** p runs from a widget at depth `depth` to the audio input adc: over at most
      ten hops, over enabled widgets that are bound to no other association, and
      through no audio input and no later pin complex. */
  ghost predicate RecordingTrail(ws: seq<Widget>, a: int, p: seq<int>, adc: int, depth: nat)
  {
    && 1 <= |p| && depth + |p| <= 11
    && (forall k :: 0 <= k < |p| ==>
          0 <= p[k] < |ws| && ws[p[k]].enable && (ws[p[k]].bindAssoc < 0 || ws[p[k]].bindAssoc == a))
    && (forall k :: 0 <= k < |p| - 1 ==> RecordingHop(ws, p, k, depth))
    && p[|p| - 1] == adc && ws[adc].kind == AudioInput
  }

  lemma FeedsConsumes(ws: seq<Widget>, a: int, n: int, j: int)
    requires 0 <= j < |ws|
    ensures Consumes(View(ws, a), n, j) <==> Feeds(ws[j], n)
  {
    if i :| Edge(View(ws, a), n, j, i) {
      assert ws[j].connsenable[i];
    }
    if i :| 0 <= i < |ws[j].conns| && i < |ws[j].connsenable| && ws[j].connsenable[i] && ws[j].conns[i] == n {
      assert Edge(View(ws, a), n, j, i);
    }
  }

  /** The walks of an input trace are these paths. */
  lemma {:induction false} WalkIff(ws: seq<Widget>, a: int, p: seq<int>, adc: int, depth: nat)
    ensures IsWalk(View(ws, a), p, adc, depth) <==> RecordingTrail(ws, a, p, adc, depth)
    decreases |p|
  {
    if |p| > 1 {
      WalkIff(ws, a, p[1..], adc, depth + 1);
      if 0 <= p[1] < |ws| {
        FeedsConsumes(ws, a, p[0], p[1]);
      }
      TrailByHop(ws, a, p, p[1..], adc, depth, depth + 1);
    }
  }

  /** A path, by its first hop and its rest. */
  lemma TrailByHop(ws: seq<Widget>, a: int, p: seq<int>, rest: seq<int>, adc: int, depth: nat, next: nat)
    requires |p| > 1 && rest == p[1..] && next == depth + 1
    ensures RecordingTrail(ws, a, p, adc, depth) <==>
            && depth <= 10 && 0 <= p[0] < |ws| && ws[p[0]].enable && (ws[p[0]].bindAssoc < 0 || ws[p[0]].bindAssoc == a)
            && RecordingHop(ws, p, 0, depth) && RecordingTrail(ws, a, rest, adc, next)
  {
    if RecordingTrail(ws, a, p, adc, depth) {
      forall k | 0 <= k < |rest| - 1 ensures RecordingHop(ws, rest, k, next) {
        assert RecordingHop(ws, p, k + 1, depth);
      }
      assert forall k :: 0 <= k < |rest| ==> rest[k] == p[k + 1];
    }
    if RecordingHop(ws, p, 0, depth) && RecordingTrail(ws, a, rest, adc, next) {
      forall k | 0 <= k < |p| - 1 ensures RecordingHop(ws, p, k, depth) {
        assert k > 0 ==> RecordingHop(ws, rest, k - 1, next);
      }
      assert forall k :: 0 < k < |p| ==> p[k] == rest[k - 1];
    }
  }

  // ----- From a recording mixer to playback -----

  /** Hop k - 1 of p goes to an enabled widget; if that is not the last it is
      unbound and no audio input or pin complex. */
  ghost predicate MonitorHop(ws: seq<Widget>, p: seq<int>, k: int)
  {
    && 0 < k < |p| && 0 <= p[k] < |ws| && ws[p[k]].enable && Feeds(ws[p[k]], p[k - 1])
    && (k < |p| - 1 ==> ws[p[k]].bindAssoc == -1 && ws[p[k]].kind != AudioInput && ws[p[k]].kind != PinComplex)
  }

  /** p runs on from its first widget to a widget of a playback association or of
      the pseudo association - or, if `beeps`, to a beep generator. */
  ghost predicate MonitorTrail(ws: seq<Widget>, assocs: seq<Assoc>, p: seq<int>, beeps: bool)
  {
    && 2 <= |p| && (forall k :: 0 < k < |p| ==> MonitorHop(ws, p, k)) && 0 <= p[|p| - 1] < |ws|
    && var w := ws[p[|p| - 1]];
       || w.bindAssoc == -2 || (0 <= w.bindAssoc < |assocs| && assocs[w.bindAssoc].dir == Out)
       || (beeps && w.kind == BeepGenerator)
  }

  lemma FeedsConsumer(ws: seq<Widget>, n: int, j: int)
    ensures Monitor.Consumer(ws, n, j) <==> 0 <= j < |ws| && ws[j].enable && Feeds(ws[j], n)
  {
    if 0 <= j < |ws| {
      if i :| Enabled(ws[j], i) && ws[j].conns[i] == n {
        assert ws[j].connsenable[i];
      }
      if i :| 0 <= i < |ws[j].conns| && i < |ws[j].connsenable| && ws[j].connsenable[i] && ws[j].conns[i] == n {
        assert Enabled(ws[j], i);
      }
    }
  }

  /** Putting a first widget before a path, and taking it away. */
  lemma MonitorOn(ws: seq<Widget>, assocs: seq<Assoc>, p: seq<int>, rest: seq<int>, beeps: bool)
    requires |p| >= 3 && rest == p[1..]
    ensures MonitorTrail(ws, assocs, p, beeps) <==> MonitorHop(ws, p, 1) && MonitorTrail(ws, assocs, rest, beeps)
  {
    if MonitorTrail(ws, assocs, p, beeps) {
      forall k | 0 < k < |rest| ensures MonitorHop(ws, rest, k) {
        var next := k + 1;
        assert MonitorHop(ws, p, next);
      }
    }
    if MonitorHop(ws, p, 1) && MonitorTrail(ws, assocs, rest, beeps) {
      forall k | 0 < k < |p| ensures MonitorHop(ws, p, k) {
        var before := k - 1;
        assert before > 0 ==> MonitorHop(ws, rest, before);
      }
    }
  }

  lemma {:induction false} LeadsHasTrail(ws: seq<Widget>, assocs: seq<Assoc>, n: int, k: nat) returns (p: seq<int>)
    requires Monitor.LeadsWithin(ws, assocs, n, k)
    ensures MonitorTrail(ws, assocs, p, true) && p[0] == n && |p| <= k + 1
    decreases k
  {
    var j :| Monitor.Consumer(ws, n, j) &&
             (Monitor.LeadsOutHere(ws[j], assocs)
              || (Monitor.Transit(ws[j]) && Monitor.LeadsWithin(ws, assocs, j, k - 1)));
    FeedsConsumer(ws, n, j);
    if Monitor.LeadsOutHere(ws[j], assocs) {
      p := [n, j];
      assert MonitorHop(ws, p, 1);
    } else {
      var rest := LeadsHasTrail(ws, assocs, j, k - 1);
      p := [n] + rest;
      assert MonitorHop(ws, p, 1);
      MonitorOn(ws, assocs, p, rest, true);
    }
  }

  lemma {:induction false} TrailLeads(ws: seq<Widget>, assocs: seq<Assoc>, p: seq<int>, k: nat)
    requires MonitorTrail(ws, assocs, p, true) && |p| <= k + 1
    ensures Monitor.LeadsWithin(ws, assocs, p[0], k)
    decreases |p|
  {
    assert MonitorHop(ws, p, 1);
    FeedsConsumer(ws, p[0], p[1]);
    if |p| > 2 {
      MonitorOn(ws, assocs, p, p[1..], true);
      TrailLeads(ws, assocs, p[1..], k - 1);
    }
  }

  /** A trace that goes on from n below depth `depth` finds playback. */
  ghost predicate GoesOut(ws: seq<Widget>, assocs: seq<Assoc>, n: int, depth: nat)
  {
    exists j :: Monitor.Consumer(ws, n, j) && Monitor.ReachesOut(ws, assocs, j, depth + 1)
  }

  lemma {:induction false} OutHasTrail(ws: seq<Widget>, assocs: seq<Assoc>, n: int, depth: nat) returns (p: seq<int>)
    requires GoesOut(ws, assocs, n, depth)
    ensures MonitorTrail(ws, assocs, p, false) && p[0] == n && depth + |p| <= 11
    decreases if depth <= MAX_DEPTH then MAX_DEPTH - depth else 0
  {
    var j :| Monitor.Consumer(ws, n, j) && Monitor.ReachesOut(ws, assocs, j, depth + 1);
    assert depth + 1 <= MAX_DEPTH;
    FeedsConsumer(ws, n, j);
    if ws[j].bindAssoc != -1 {
      p := [n, j];
      assert MonitorHop(ws, p, 1);
    } else {
      var rest := OutHasTrail(ws, assocs, j, depth + 1);
      p := [n] + rest;
      assert MonitorHop(ws, p, 1);
      MonitorOn(ws, assocs, p, rest, false);
    }
  }

  lemma {:induction false} TrailGoesOut(ws: seq<Widget>, assocs: seq<Assoc>, p: seq<int>, depth: nat)
    requires MonitorTrail(ws, assocs, p, false) && depth + |p| <= 11
    ensures GoesOut(ws, assocs, p[0], depth)
    decreases |p|
  {
    assert MonitorHop(ws, p, 1);
    FeedsConsumer(ws, p[0], p[1]);
    if |p| > 2 {
      MonitorOn(ws, assocs, p, p[1..], false);
      TrailGoesOut(ws, assocs, p[1..], depth + 1);
    }
  }

  /** Which widgets the extra trace makes monitors, said of paths: an enabled mixer
      of a recording association with a path of at most ten hops to playback is one
      afterwards; and a widget that has become one belongs to a playback
      association or is such a mixer with a path of any length, perhaps to a beep
      generator. */
  lemma MonitorsMade(startNode: nat, ws: seq<Widget>, ws': seq<Widget>, assocs: seq<Assoc>, n: nat)
    requires Monitor.ExtraTraced(startNode, ws, ws', assocs) && n < |ws|
    ensures |ws'| == |ws|
    ensures ws[n].enable && ws[n].kind == Mixer && 0 <= ws[n].bindAssoc < |assocs|
            && assocs[ws[n].bindAssoc].dir == In
            && (exists p :: MonitorTrail(ws, assocs, p, false) && p[0] == n && |p| <= 11) ==>
              ws'[n].monitor
    ensures ws'[n].monitor && !ws[n].monitor ==>
              && 0 <= ws[n].bindAssoc < |assocs|
              && (|| assocs[ws[n].bindAssoc].dir == Out
                  || (ws[n].kind == Mixer && exists p :: MonitorTrail(ws, assocs, p, true) && p[0] == n))
  {
    if p :| MonitorTrail(ws, assocs, p, false) && p[0] == n && |p| <= 11 {
      TrailGoesOut(ws, assocs, p, 0);
    }
    if ws'[n].monitor && !ws[n].monitor && ws[n].kind == Mixer && Monitor.LeadsOut(ws, assocs, n) {
      var k: nat :| Monitor.LeadsWithin(ws, assocs, n, k);
      var p := LeadsHasTrail(ws, assocs, n, k);
    }
  }

  // ----- What the extra trace opens -----

  /** Hop k - 1 of p is open afterwards: a widget on the way belongs to the
      pseudo association, a selector has selected. */
  ghost predicate OpenHop(ws: seq<Widget>, ws': seq<Widget>, p: seq<int>, k: int)
  {
    && MonitorHop(ws, p, k) && p[k] < |ws'|
    && (k < |p| - 1 ==> ws'[p[k]].bindAssoc == -2)
    && (ws[p[k]].kind == Selector ==> ws'[p[k]].selconn != -1)
  }

  /** p runs to playback, open all the way, and the widget of a playback
      association it ends at is a monitor, unless it is a beep generator. */
  ghost predicate OpenTrail(ws: seq<Widget>, ws': seq<Widget>, assocs: seq<Assoc>, p: seq<int>)
  {
    && MonitorTrail(ws, assocs, p, true) && |ws'| == |ws|
    && (forall k :: 0 < k < |p| ==> OpenHop(ws, ws', p, k))
    && var last := p[|p| - 1];
       0 <= ws[last].bindAssoc < |assocs| && assocs[ws[last].bindAssoc].dir == Out && ws[last].kind != BeepGenerator ==>
         ws'[last].monitor
  }

  lemma OpenOn(ws: seq<Widget>, ws': seq<Widget>, assocs: seq<Assoc>, p: seq<int>, rest: seq<int>)
    requires |p| >= 3 && rest == p[1..] && OpenHop(ws, ws', p, 1) && OpenTrail(ws, ws', assocs, rest)
    ensures OpenTrail(ws, ws', assocs, p)
  {
    MonitorOn(ws, assocs, p, rest, true);
    forall k | 0 < k < |p| ensures OpenHop(ws, ws', p, k) {
      var before := k - 1;
      assert before > 0 ==> OpenHop(ws, ws', rest, before);
    }
  }

  lemma {:induction false} OpenHasTrail(ws: seq<Widget>, ws': seq<Widget>, assocs: seq<Assoc>, n: int, k: nat)
    returns (p: seq<int>)
    requires Monitor.OpenWithin(ws, ws', assocs, n, k) && |ws'| == |ws|
    ensures OpenTrail(ws, ws', assocs, p) && p[0] == n
    decreases k
  {
    var j :| Monitor.OpenedInto(ws, ws', n, j) &&
             (|| Monitor.OpenEnd(ws[j], ws'[j], assocs)
              || (Monitor.Transit(ws[j]) && ws'[j].bindAssoc == -2 && Monitor.OpenWithin(ws, ws', assocs, j, k - 1)));
    FeedsConsumer(ws, n, j);
    if Monitor.OpenEnd(ws[j], ws'[j], assocs) {
      p := [n, j];
      assert MonitorHop(ws, p, 1) && OpenHop(ws, ws', p, 1);
    } else {
      var rest := OpenHasTrail(ws, ws', assocs, j, k - 1);
      p := [n] + rest;
      assert MonitorHop(ws, p, 1) && OpenHop(ws, ws', p, 1);
      OpenOn(ws, ws', assocs, p, rest);
    }
  }

  /** What the extra trace opens: from a mixer or pin of a recording association
      and from a beep generator, if a path of at most ten hops to playback was
      free before, a path is open afterwards; and so from every widget that has
      joined the pseudo association, beep generators aside.  Only an undecided
      selector is given a selection. */
  lemma TrailsOpened(startNode: nat, ws: seq<Widget>, ws': seq<Widget>, assocs: seq<Assoc>, n: nat)
    requires Monitor.ExtraTraced(startNode, ws, ws', assocs) && n < |ws|
    ensures |ws'| == |ws|
    ensures ws[n].enable
            && (|| ws[n].kind == BeepGenerator
                || (ws[n].kind in {Mixer, PinComplex} && 0 <= ws[n].bindAssoc < |assocs|
                    && assocs[ws[n].bindAssoc].dir == In))
            && (exists p :: MonitorTrail(ws, assocs, p, false) && p[0] == n && |p| <= 11) ==>
              exists p :: OpenTrail(ws, ws', assocs, p) && p[0] == n
    ensures ws[n].bindAssoc == -1 && ws'[n].bindAssoc == -2 && ws[n].kind != BeepGenerator ==>
              exists p :: OpenTrail(ws, ws', assocs, p) && p[0] == n
    ensures ws'[n].selconn != ws[n].selconn ==>
              && ws[n].enable && ws[n].kind == Selector && ws[n].selconn == -1
              && 0 <= ws'[n].selconn < |ws[n].conns| && ws'[n].selconn < |ws[n].connsenable|
              && ws[n].connsenable[ws'[n].selconn]
  {
    assert Monitor.TappedAt(ws[n], ws'[n]);
    if p :| MonitorTrail(ws, assocs, p, false) && p[0] == n && |p| <= 11 {
      TrailGoesOut(ws, assocs, p, 0);
    }
    if Monitor.Opened(ws, ws', assocs, n) {
      var k: nat :| Monitor.OpenWithin(ws, ws', assocs, n, k);
      var p := OpenHasTrail(ws, ws', assocs, n, k);
    }
  }
}
