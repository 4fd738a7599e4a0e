/** What jack events and record selection mean for the codec and for the records,
    in the fields of pins, mixers, selectors and controls. */
module JackFacts {
  import opened HdaGraph
  import opened Configuration
  import opened Amplifiers
  import opened PruningPasses
  import opened CodecCommit
  import opened JackSwitch
  import opened MicSwitch
  import opened SwitchPoll
  import Rec = RecordSelect

  // ----- The control the handlers ask for -----

  /** Control c is an enabled one on the input side of widget n, for connection i
      (any for i < 0) unless it is no input amplifier. */
  predicate InputControl(cs: seq<Control>, n: int, i: int, c: int)
  {
    && 0 <= c < |cs| && cs[c].enable && cs[c].widget == n && cs[c].ndir == In
    && (i < 0 || cs[c].dir != In || cs[c].index == i)
  }

  predicate FirstInput(cs: seq<Control>, n: int, i: int, c: int)
  {
    InputControl(cs, n, i, c) && forall d :: 0 <= d < c ==> !InputControl(cs, n, i, d)
  }

  lemma FirstInputIff(cs: seq<Control>, n: int, i: int, c: int)
    ensures IsNth(cs, n, In, i, 1, c) <==> FirstInput(cs, n, i, c)
  {
    if 0 <= c < |cs| {
      MatchCountZero(cs, n, In, i, c);
      assert forall d :: 0 <= d < |cs| ==> (CtlMatches(cs[d], n, In, i) <==> InputControl(cs, n, i, d));
    }
  }

  // ----- What is heard -----

  /** A pin whose first input control can mute is heard unless that is forced mute,
      and then the codec's amplifier is muted at gain 0 on both channels, else as
      the control asks. */
  lemma HeardByMute(startNode: nat, ws: seq<Widget>, cs: seq<Control>, log: seq<Verb>, n: nat, c: int)
    requires CodecReady(startNode, ws, cs, log) && n < |ws| && FirstInput(cs, n, -1, c) && cs[c].mute
    ensures Audible(ws, cs, n) <==> !cs[c].forcemute
    ensures forall right ::
              AmpAt(log, n, cs[c].dir, cs[c].index % 16, right) ==
                if cs[c].forcemute then Amp(true, 0)
                else if right then Amp(cs[c].muted.1, if cs[c].right < 0 then 0 else cs[c].right)
                else Amp(cs[c].muted.0, if cs[c].left < 0 then 0 else cs[c].left)
  {
    assert IsMuter(cs, n, c) && forall d :: IsMuter(cs, n, d) ==> d == c by {
      assert forall d :: 0 <= d < |cs| ==> (PinCtl(cs[d], n) <==> InputControl(cs, n, -1, d));
    }
    assert Mirrors(log, cs[c]);
    forall right
      ensures AmpAt(log, n, cs[c].dir, cs[c].index % 16, right) == AmpOfControl(log, cs[c], right)
    {
    }
  }

  /** Any other pin is heard exactly when bit 6 of its control word is set, and the
      codec has that word. */
  lemma HeardByOutput(startNode: nat, ws: seq<Widget>, cs: seq<Control>, log: seq<Verb>, n: nat)
    requires CodecReady(startNode, ws, cs, log) && startNode <= n < |ws| && ws[n].kind == PinComplex
    requires forall c :: FirstInput(cs, n, -1, c) ==> !cs[c].mute
    ensures Audible(ws, cs, n) <==> ws[n].ctrl & 0x40 != 0
    ensures CtrlAt(log, n) == (true, ws[n].ctrl)
  {
    assert !HasMuter(cs, n) by {
      forall c ensures !IsMuter(cs, n, c) {
        if IsMuter(cs, n, c) {
          assert forall d :: 0 <= d < |cs| ==> (PinCtl(cs[d], n) <==> InputControl(cs, n, -1, d));
          assert FirstInput(cs, n, -1, c);
        }
      }
    }
  }

  // ----- Which pin fired last -----

  /** Pin n fires in poll j: it is enabled, can sense, is a jack (bit 8 of the
      configuration is clear) of an association that redirects, and what it senses
      differs from the poll before, or this is the first. */
  predicate FiresAt(ws: seq<Widget>, assocs: seq<Assoc>, polls: seq<seq<bool>>, j: int, n: int)
  {
    && 0 <= n < |ws| && ws[n].enable && ws[n].kind == PinComplex && ws[n].senseCap && ws[n].config / 0x100 % 2 == 0
    && 0 <= ws[n].bindAssoc < |assocs| && assocs[ws[n].bindAssoc].hpredir >= 0
    && 0 <= j < |polls| && n < |polls[j]|
    && (j == 0 || (n < |polls[j - 1]| && polls[j][n] != polls[j - 1][n]))
  }

  /** Pin n of association a is the last to fire in the first k polls: none fires
      in a later poll, nor a pin of a higher node in the same. */
  ghost predicate LastToFire(ws: seq<Widget>, assocs: seq<Assoc>, polls: seq<seq<bool>>, k: nat, a: int, n: int)
  {
    exists j :: LastFireAt(ws, assocs, polls, k, a, j, n)
  }

  ghost predicate LastFireAt(ws: seq<Widget>, assocs: seq<Assoc>, polls: seq<seq<bool>>, k: nat, a: int, j: int,
                             n: int)
  {
    && 0 <= j < k && FiresAt(ws, assocs, polls, j, n) && ws[n].bindAssoc == a
    && forall i, m :: j <= i < k && FiresAt(ws, assocs, polls, i, m) && ws[m].bindAssoc == a ==> i == j && m <= n
  }

  lemma FiresIff(ws: seq<Widget>, assocs: seq<Assoc>, polls: seq<seq<bool>>, k: nat, n: nat)
    requires k < |polls| && n < |ws| && forall j :: 0 <= j < |polls| ==> |polls[j]| == |ws|
    ensures FiresIn(ws, assocs, polls, k, n) <==> FiresAt(ws, assocs, polls, k, n)
  {
    assert ws[n].config / 0x100 % 16 % 2 == ws[n].config / 0x100 % 2;
  }

  /** Within one poll: the highest node below n that fires, else prev. */
  lemma {:induction false} LastInPollIs(ws: seq<Widget>, assocs: seq<Assoc>, polls: seq<seq<bool>>, k: nat, a: int,
                                        prev: int, n: nat)
    requires k < |polls| && n <= |ws| && forall j :: 0 <= j < |polls| ==> |polls[j]| == |ws|
    ensures var l := LastInPoll(ws, assocs, polls, k, a, prev, n);
            || (&& 0 <= l < n && FiresAt(ws, assocs, polls, k, l) && ws[l].bindAssoc == a
                && forall m :: l < m < n && FiresAt(ws, assocs, polls, k, m) ==> ws[m].bindAssoc != a)
            || (l == prev && forall m :: 0 <= m < n && FiresAt(ws, assocs, polls, k, m) ==> ws[m].bindAssoc != a)
  {
    if n > 0 {
      LastInPollIs(ws, assocs, polls, k, a, prev, n - 1);
      FiresIff(ws, assocs, polls, k, n - 1);
    }
  }

  /** The pin a run leaves to decide is the last to fire; 0 stands for none. */
  lemma {:induction false} LastInRunIs(ws: seq<Widget>, assocs: seq<Assoc>, polls: seq<seq<bool>>, k: nat, a: int)
    requires k <= |polls| && (forall j :: 0 <= j < |polls| ==> |polls[j]| == |ws|) && !Live(ws, 0)
    ensures var n := LastInRun(ws, assocs, polls, k, a);
            if n == 0 then forall j, m :: 0 <= j < k && FiresAt(ws, assocs, polls, j, m) ==> ws[m].bindAssoc != a
            else LastToFire(ws, assocs, polls, k, a, n)
  {
    if k > 0 {
      var prev := LastInRun(ws, assocs, polls, k - 1, a);
      var n := LastInRun(ws, assocs, polls, k, a);
      LastInRunIs(ws, assocs, polls, k - 1, a);
      LastInPollIs(ws, assocs, polls, k - 1, a, prev, |ws|);
      if n != 0 && FiresAt(ws, assocs, polls, k - 1, n) && ws[n].bindAssoc == a
         && forall m :: n < m < |ws| && FiresAt(ws, assocs, polls, k - 1, m) ==> ws[m].bindAssoc != a {
        assert LastFireAt(ws, assocs, polls, k, a, k - 1, n);
      } else if n != 0 {
        var j :| LastFireAt(ws, assocs, polls, k - 1, a, j, n);
        assert LastFireAt(ws, assocs, polls, k, a, j, n);
      }
    }
  }

  // ----- What is recorded after an input jack -----

  /** Connection i of widget j, one of at least two enabled ones of a widget of
      association a; not from a mixer that is no monitor. */
  predicate JackInput(ws: seq<Widget>, a: int, j: int, i: int)
  {
    && 0 <= j < |ws| && ws[j].enable && ws[j].bindAssoc == a && ws[j].connsenabled >= 2
    && 0 <= i < |ws[j].conns| && i < |ws[j].connsenable| && ws[j].connsenable[i] && 0 <= ws[j].conns[i] < |ws|
    && (ws[ws[j].conns[i]].kind == Mixer ==> ws[ws[j].conns[i]].monitor)
  }

  predicate Overlap(mask: set<int>, other: set<int>)
  {
    mask * other != {}
  }

  lemma SharesIff(mask: set<int>, other: set<int>)
    ensures Shares(mask, other) <==> Overlap(mask, other)
  {
    if b :| b in mask && b in other {
      assert b in mask * other;
    }
    if forall b :: b in mask ==> b !in other {
      assert mask * other == {};
    }
  }

  /** After the event of input jack n of association a: the input amplifier of a
      mixer connection is forced mute exactly when the jack is plugged and the
      connection carries the default pin, or neither. */
  lemma RecordedMixer(ws: seq<Widget>, cs: seq<Control>, assocs: seq<Assoc>, a: int, n: int, plugged: bool, j: int,
                      i: int, c: int)
    requires Recorded(ws, cs, assocs, a, n, plugged)
    requires JackInput(ws, a, j, i) && ws[j].kind == Mixer && FirstInput(cs, j, i, c) && cs[c].dir == In
    ensures 0 <= a < |assocs| && AssocOk(assocs[a]) && 0 <= assocs[a].defaultPin < PINS
    ensures 0 <= assocs[a].pins[assocs[a].defaultPin] < |ws|
    ensures var def := ws[assocs[a].pins[assocs[a].defaultPin]].bindSeqMask;
            cs[c].forcemute <==> (plugged <==> Overlap(ws[ws[j].conns[i]].bindSeqMask, def))
  {
    FirstInputIff(cs, j, i, c);
    assert OwnAmp(ws, cs, a, j, i, c);
    SharesIff(ws[ws[j].conns[i]].bindSeqMask, DefaultMask(ws, assocs, a));
  }

  /** And a selector with a connection that carries the jack exactly if it is
      plugged stands on the last of these. */
  lemma RecordedSelector(ws: seq<Widget>, cs: seq<Control>, assocs: seq<Assoc>, a: int, n: int, plugged: bool, j: int,
                         i: int)
    requires Recorded(ws, cs, assocs, a, n, plugged) && 0 <= n < |ws|
    requires JackInput(ws, a, j, i) && ws[j].kind == Selector
    requires Overlap(ws[ws[j].conns[i]].bindSeqMask, ws[n].bindSeqMask) == plugged
    ensures i <= ws[j].selconn && JackInput(ws, a, j, ws[j].selconn)
    ensures Overlap(ws[ws[j].conns[ws[j].selconn]].bindSeqMask, ws[n].bindSeqMask) == plugged
  {
    SharesIff(ws[ws[j].conns[i]].bindSeqMask, ws[n].bindSeqMask);
    assert Moves(ws, a, j, i, ws[n].bindSeqMask, plugged);
    SharesIff(ws[ws[j].conns[ws[j].selconn]].bindSeqMask, ws[n].bindSeqMask);
  }

  // ----- Record selection -----

  /** Connection i of widget j as record selection sees it: enabled, between
      enabled widgets, from a bound one. */
  predicate RecInput(ws: seq<Widget>, j: int, i: int)
  {
    && 0 <= j < |ws| && ws[j].enable
    && 0 <= i < |ws[j].conns| && i < |ws[j].connsenable| && ws[j].connsenable[i]
    && 0 <= ws[j].conns[i] < |ws| && ws[ws[j].conns[i]].enable && ws[ws[j].conns[i]].bindAssoc != -1
  }

  /** A mixer that record selection reaches: every input amplifier is forced mute
      exactly when its connection carries none of the requested sources. */
  lemma SelectedMixer(ws: seq<Widget>, cs: seq<Control>, ws': seq<Widget>, cs': seq<Control>, so: Rec.Sources,
                      src: set<int>, nid: int, depth: nat, m: int, i: int, c: int)
    requires Rec.SourcesOk(so, |ws|) && Rec.RecSelected(ws, cs, ws', cs', so, src, nid, depth)
    requires 0 <= m < |ws| && Rec.Reaches(ws, so, src, nid, depth, m) && ws[m].kind == Mixer
    requires RecInput(ws, m, i) && FirstInput(cs, m, i, c) && cs[c].dir == In
    ensures |cs'| == |cs| && (cs'[c].forcemute <==> !Overlap(src, so.masks[ws[m].conns[i]]))
  {
    FirstInputIff(cs, m, i, c);
    SharesIff(src, so.masks[ws[m].conns[i]]);
    assert Rec.WidgetDone(ws, cs, ws', cs', so, src, m);
    assert Rec.MixerInput(ws, cs, m, i, c);
  }

  /** A selector it reaches stands on its first connection that carries a requested
      source, and stays where it was if there is none. */
  lemma SelectedSelector(ws: seq<Widget>, cs: seq<Control>, ws': seq<Widget>, cs': seq<Control>, so: Rec.Sources,
                         src: set<int>, nid: int, depth: nat, m: int)
    requires Rec.SourcesOk(so, |ws|) && Rec.RecSelected(ws, cs, ws', cs', so, src, nid, depth)
    requires 0 <= m < |ws| && Rec.Reaches(ws, so, src, nid, depth, m) && ws[m].kind == Selector
    ensures |ws'| == |ws|
    ensures || (&& RecInput(ws, m, ws'[m].selconn) && Overlap(src, so.masks[ws[m].conns[ws'[m].selconn]])
                && forall k :: 0 <= k < ws'[m].selconn && RecInput(ws, m, k) ==>
                     !Overlap(src, so.masks[ws[m].conns[k]]))
            || (&& ws'[m].selconn == ws[m].selconn
                && forall k :: RecInput(ws, m, k) ==> !Overlap(src, so.masks[ws[m].conns[k]]))
  {
    assert Rec.WidgetDone(ws, cs, ws', cs', so, src, m);
    FirstCarryingIs(ws, so, src, m, |ws[m].conns|);
  }

  lemma {:induction false} FirstCarryingIs(ws: seq<Widget>, so: Rec.Sources, src: set<int>, m: int, n: nat)
    requires Rec.SourcesOk(so, |ws|)
    ensures var f := Rec.FirstCarrying(ws, so, src, m, n);
            if f == -1 then
              forall k :: 0 <= k < n && RecInput(ws, m, k) ==> !Overlap(src, so.masks[ws[m].conns[k]])
            else
              && 0 <= f < n && RecInput(ws, m, f) && Overlap(src, so.masks[ws[m].conns[f]])
              && forall k :: 0 <= k < f && RecInput(ws, m, k) ==> !Overlap(src, so.masks[ws[m].conns[k]])
  {
    if n > 0 {
      FirstCarryingIs(ws, so, src, m, n - 1);
      if RecInput(ws, m, n - 1) {
        SharesIff(src, so.masks[ws[m].conns[n - 1]]);
      }
    }
  }

  /** Record selection follows connection i of widget j: it carries a requested
      source, and for a selector no earlier connection does. */
  predicate RecTaken(ws: seq<Widget>, so: Rec.Sources, src: set<int>, j: int, i: int)
    requires Rec.SourcesOk(so, |ws|)
  {
    && RecInput(ws, j, i) && Overlap(src, so.masks[ws[j].conns[i]])
    && (ws[j].kind == Selector ==>
          forall k :: 0 <= k < i && RecInput(ws, j, k) ==> !Overlap(src, so.masks[ws[j].conns[k]]))
  }

  /** Hop k of p: over a connection taken, to a widget that is no mixer channel. */
  ghost predicate RecHop(ws: seq<Widget>, so: Rec.Sources, src: set<int>, p: seq<int>, k: int)
    requires Rec.SourcesOk(so, |ws|)
  {
    0 <= k < |p| - 1 && exists i :: RecTaken(ws, so, src, p[k], i) && ws[p[k]].conns[i] == p[k + 1]
                                    && so.devs[p[k + 1]] < 0
  }

  /** A path record selection goes, from an enabled widget at depth `depth`. */
  ghost predicate RecTrail(ws: seq<Widget>, so: Rec.Sources, src: set<int>, p: seq<int>, depth: nat)
    requires Rec.SourcesOk(so, |ws|)
  {
    && 1 <= |p| && depth + |p| <= 11 && 0 <= p[0] < |ws| && ws[p[0]].enable
    && forall k :: 0 <= k < |p| - 1 ==> RecHop(ws, so, src, p, k)
  }

  lemma TakenIff(ws: seq<Widget>, so: Rec.Sources, src: set<int>, j: int, i: int)
    requires Rec.SourcesOk(so, |ws|)
    ensures RecTaken(ws, so, src, j, i) <==>
            && Rec.RecEdge(ws, j, i) && Rec.Carrying(ws, so, src, j, i)
            && (ws[j].kind == Selector ==> Rec.FirstCarrying(ws, so, src, j, i) == -1)
  {
    if RecInput(ws, j, i) {
      SharesIff(src, so.masks[ws[j].conns[i]]);
      FirstCarryingIs(ws, so, src, j, i);
    }
  }

  lemma RecTrailOn(ws: seq<Widget>, so: Rec.Sources, src: set<int>, p: seq<int>, rest: seq<int>, depth: nat, next: nat)
    requires Rec.SourcesOk(so, |ws|) && |p| > 1 && rest == p[1..] && next == depth + 1
    ensures RecTrail(ws, so, src, p, depth) <==>
            && depth <= 10 && 0 <= p[0] < |ws| && ws[p[0]].enable
            && RecHop(ws, so, src, p, 0) && RecTrail(ws, so, src, rest, next)
  {
    if RecTrail(ws, so, src, p, depth) {
      assert RecHop(ws, so, src, p, 0);
      forall k | 0 <= k < |rest| - 1 ensures RecHop(ws, so, src, rest, k) {
        var after := k + 1;
        assert RecHop(ws, so, src, p, after);
      }
    }
    if RecHop(ws, so, src, p, 0) && RecTrail(ws, so, src, rest, next) {
      forall k | 0 <= k < |p| - 1 ensures RecHop(ws, so, src, p, k) {
        var before := k - 1;
        assert before >= 0 ==> RecHop(ws, so, src, rest, before);
      }
    }
  }

  lemma {:induction false} ReachesHasTrail(ws: seq<Widget>, so: Rec.Sources, src: set<int>, nid: int, depth: nat,
                                           m: int) returns (p: seq<int>)
    requires Rec.SourcesOk(so, |ws|) && Rec.Reaches(ws, so, src, nid, depth, m)
    ensures RecTrail(ws, so, src, p, depth) && p[0] == nid && p[|p| - 1] == m
    decreases MAX_DEPTH + 1 - depth
  {
    if m == nid {
      p := [nid];
    } else {
      var i :| Rec.Descends(ws, so, src, nid, i) && Rec.Reaches(ws, so, src, ws[nid].conns[i], depth + 1, m);
      var rest := ReachesHasTrail(ws, so, src, ws[nid].conns[i], depth + 1, m);
      TakenIff(ws, so, src, nid, i);
      p := [nid] + rest;
      assert RecHop(ws, so, src, p, 0);
      RecTrailOn(ws, so, src, p, rest, depth, depth + 1);
    }
  }

  lemma {:induction false} TrailIsReached(ws: seq<Widget>, so: Rec.Sources, src: set<int>, p: seq<int>, depth: nat)
    requires Rec.SourcesOk(so, |ws|) && RecTrail(ws, so, src, p, depth)
    ensures Rec.Reaches(ws, so, src, p[0], depth, p[|p| - 1])
    decreases |p|
  {
    if |p| > 1 {
      RecTrailOn(ws, so, src, p, p[1..], depth, depth + 1);
      TrailIsReached(ws, so, src, p[1..], depth + 1);
      assert RecHop(ws, so, src, p, 0);
      var i :| RecTaken(ws, so, src, p[0], i) && ws[p[0]].conns[i] == p[1] && so.devs[p[1]] < 0;
      TakenIff(ws, so, src, p[0], i);
      assert Rec.Descends(ws, so, src, p[0], i);
    }
  }

  /** Record selection reaches a widget exactly over such a path. */
  lemma RecReachesIff(ws: seq<Widget>, so: Rec.Sources, src: set<int>, nid: int, m: int)
    requires Rec.SourcesOk(so, |ws|)
    ensures Rec.Reaches(ws, so, src, nid, 0, m) <==>
            exists p :: RecTrail(ws, so, src, p, 0) && p[0] == nid && p[|p| - 1] == m
  {
    if Rec.Reaches(ws, so, src, nid, 0, m) {
      var p := ReachesHasTrail(ws, so, src, nid, 0, m);
    }
    if p :| RecTrail(ws, so, src, p, 0) && p[0] == nid && p[|p| - 1] == m {
      TrailIsReached(ws, so, src, p, 0);
    }
  }

  /** Widget m takes source s from a mixer channel. */
  ghost predicate EndsIn(ws: seq<Widget>, so: Rec.Sources, src: set<int>, m: int, s: int)
    requires Rec.SourcesOk(so, |ws|)
  {
    exists i :: RecTaken(ws, so, src, m, i) && so.devs[ws[m].conns[i]] >= 0 && s in so.masks[ws[m].conns[i]]
  }

  lemma {:induction false} SourcesBelowAre(ws: seq<Widget>, so: Rec.Sources, src: set<int>, nid: int, depth: nat,
                                           n: nat, s: int)
    requires Rec.SourcesOk(so, |ws|) && depth <= MAX_DEPTH && Live(ws, nid)
    ensures s in Rec.SourcesBelow(ws, so, src, nid, depth, n) <==>
            exists i :: 0 <= i < n && RecTaken(ws, so, src, nid, i)
                        && s in Rec.SourcesBehind(ws, so, src, ws[nid].conns[i], depth)
    decreases n
  {
    if n > 0 {
      SourcesBelowAre(ws, so, src, nid, depth, n - 1, s);
      TakenIff(ws, so, src, nid, n - 1);
    }
  }

  /** What the call answers: the sources of the mixer channels at the ends of its
      paths. */
  lemma {:induction false} AnswerIs(ws: seq<Widget>, so: Rec.Sources, src: set<int>, nid: int, depth: nat, s: int)
    requires Rec.SourcesOk(so, |ws|)
    ensures s in Rec.SourcesFrom(ws, so, src, nid, depth) <==>
            exists m :: Rec.Reaches(ws, so, src, nid, depth, m) && EndsIn(ws, so, src, m, s)
    decreases MAX_DEPTH + 1 - depth
  {
    if depth <= MAX_DEPTH && Live(ws, nid) {
      SourcesBelowAre(ws, so, src, nid, depth, |ws[nid].conns|, s);
      forall i | RecTaken(ws, so, src, nid, i) && s in Rec.SourcesBehind(ws, so, src, ws[nid].conns[i], depth)
        ensures exists m :: Rec.Reaches(ws, so, src, nid, depth, m) && EndsIn(ws, so, src, m, s)
      {
        AnswerVia(ws, so, src, nid, depth, i, s);
      }
      if m :| Rec.Reaches(ws, so, src, nid, depth, m) && EndsIn(ws, so, src, m, s) {
        AnswerReached(ws, so, src, nid, depth, m, s);
      }
    }
  }

  lemma {:induction false} AnswerVia(ws: seq<Widget>, so: Rec.Sources, src: set<int>, nid: int, depth: nat, i: int,
                                     s: int)
    requires Rec.SourcesOk(so, |ws|) && depth <= MAX_DEPTH && Live(ws, nid) && RecTaken(ws, so, src, nid, i)
    requires s in Rec.SourcesBehind(ws, so, src, ws[nid].conns[i], depth)
    ensures exists m :: Rec.Reaches(ws, so, src, nid, depth, m) && EndsIn(ws, so, src, m, s)
    decreases MAX_DEPTH + 1 - depth, 0
  {
    var child := ws[nid].conns[i];
    TakenIff(ws, so, src, nid, i);
    if so.devs[child] < 0 {
      AnswerIs(ws, so, src, child, depth + 1, s);
      var m :| Rec.Reaches(ws, so, src, child, depth + 1, m) && EndsIn(ws, so, src, m, s);
      assert Rec.Descends(ws, so, src, nid, i);
      assert Rec.Reaches(ws, so, src, nid, depth, m);
    } else {
      assert EndsIn(ws, so, src, nid, s) && Rec.Reaches(ws, so, src, nid, depth, nid);
    }
  }

  lemma {:induction false} AnswerReached(ws: seq<Widget>, so: Rec.Sources, src: set<int>, nid: int, depth: nat, m: int,
                                         s: int)
    requires Rec.SourcesOk(so, |ws|) && Rec.Reaches(ws, so, src, nid, depth, m) && EndsIn(ws, so, src, m, s)
    ensures s in Rec.SourcesFrom(ws, so, src, nid, depth)
    decreases MAX_DEPTH + 1 - depth, 0
  {
    SourcesBelowAre(ws, so, src, nid, depth, |ws[nid].conns|, s);
    if m == nid {
      var i :| RecTaken(ws, so, src, m, i) && so.devs[ws[m].conns[i]] >= 0 && s in so.masks[ws[m].conns[i]];
      assert s in Rec.SourcesBehind(ws, so, src, ws[nid].conns[i], depth);
    } else {
      var i :| Rec.Descends(ws, so, src, nid, i) && Rec.Reaches(ws, so, src, ws[nid].conns[i], depth + 1, m);
      TakenIff(ws, so, src, nid, i);
      AnswerIs(ws, so, src, ws[nid].conns[i], depth + 1, s);
      assert s in Rec.SourcesBehind(ws, so, src, ws[nid].conns[i], depth);
    }
  }
}
