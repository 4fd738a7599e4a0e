/** The verbs that program amplifiers, pins and selectors (HD Audio
    specification, sections 7.3.3.2, 7.3.3.7 and 7.3.3.12), and audioCommit,
    which brings the codec to the state of the tables. */
module Amplifiers {
  import opened HdaGraph
  import opened Configuration

  // ----- Verbs -----

  datatype Verb =
    | SetAmp(nid: int, payload: nat)
    | SetPinCtrl(nid: int, ctrl: bv32)
    | SelectConn(nid: int, index: int)

  /** The connection to the codec; log holds the verbs sent. */
  class CodecLink {
    var log: seq<Verb>

    constructor ()
      ensures log == []
    {
      log := [];
    }

    method SendCommand(v: Verb)
      modifies this
      ensures log == old(log) + [v]
    {
      log := log + [v];
    }
  }

  // ----- The payload of an amplifier verb -----

  datatype AmpWrite = AmpWrite(dir: Dir, left: bool, right: bool, index: nat, mute: bool, gain: nat)

  function Bit(b: bool, weight: nat): nat { if b then weight else 0 }

  /** The 16-bit payload for an index below 32.  Bit 4 of the index falls on the
      bit of the right channel; no other fields overlap, so the sum is the or. */
  function Payload(w: AmpWrite): nat
  {
    (if w.dir == Out then 0x8000 else 0x4000) + Bit(w.left, 0x2000) + Bit(w.right || w.index / 16 % 2 == 1, 0x1000)
    + w.index % 16 * 0x100 + Bit(w.mute, 0x80) + w.gain
  }

  /** How the codec reads a payload that names one amplifier. */
  function Fields(payload: nat): AmpWrite
  {
    AmpWrite(if payload / 0x8000 % 2 == 1 then Out else In, payload / 0x2000 % 2 == 1, payload / 0x1000 % 2 == 1,
             payload / 0x100 % 16, payload / 0x80 % 2 == 1, payload % 0x80)
  }

  lemma PayloadDigits(v: nat, top: nat, index: nat, m: nat, gain: nat)
    requires index < 16 && m < 2 && gain < 0x80 && v == top * 0x1000 + index * 0x100 + m * 0x80 + gain
    ensures v % 0x80 == gain && v / 0x80 % 2 == m && v / 0x100 % 16 == index && v / 0x1000 == top
  {
    assert v == 0x80 * (v / 0x80) + v % 0x80;
    assert v / 0x80 == top * 0x20 + index * 2 + m;
    assert v / 0x100 == v / 0x80 / 2 == top * 0x10 + index;
    assert v / 0x1000 == v / 0x100 / 0x10;
  }

  lemma TopBits(v: nat, d: nat, l: nat, r: nat)
    requires 1 <= d <= 2 && l < 2 && r < 2 && v / 0x1000 == 4 * d + 2 * l + r
    ensures v / 0x1000 % 2 == r && v / 0x2000 % 2 == l && v / 0x8000 % 2 == (if d == 2 then 1 else 0)
  {
    assert v / 0x2000 == v / 0x1000 / 2 && v / 0x8000 == v / 0x1000 / 8;
  }

  /** The codec reads what was composed, but an index from 16 on as 16 less and
      for the right channel too. */
  lemma PayloadFields(w: AmpWrite)
    requires w.index < 32 && w.gain < 0x80
    ensures Fields(Payload(w)) == w.(right := w.right || w.index >= 16, index := w.index % 16)
  {
    var d, l, r := if w.dir == Out then 2 else 1, Bit(w.left, 1), Bit(w.right || w.index >= 16, 1);
    assert (w.index / 16 % 2 == 1) == (w.index >= 16);
    PayloadDigits(Payload(w), 4 * d + 2 * l + r, w.index % 16, Bit(w.mute, 1), w.gain);
    TopBits(Payload(w), d, l, r);
  }

  /** The numbers of the HD Audio specification, section 7.3.3.7: set output or
      input (0x8000, 0x4000), left, right (0x2000, 0x1000), index, mute (0x80). */
  lemma PayloadNumbers(gain: nat, index: nat)
    requires gain < 0x80 && index < 16
    ensures Payload(AmpWrite(Out, true, true, 0, false, gain)) == 0xB000 + gain
    ensures Payload(AmpWrite(Out, true, true, 0, true, 0)) == 0xB080
    ensures Payload(AmpWrite(In, true, true, index, true, 0)) == 0x7080 + index * 0x100
    ensures Payload(AmpWrite(In, true, false, index, false, gain)) == 0x6000 + index * 0x100 + gain
    ensures Payload(AmpWrite(In, false, true, index, false, gain)) == 0x5000 + index * 0x100 + gain
  {
  }

  // ----- What the codec's amplifiers hold -----

  datatype AmpState = Unknown | Amp(mute: bool, gain: nat)

  predicate Addresses(v: Verb, nid: int, dir: Dir, index: nat, right: bool)
  {
    && v.SetAmp? && v.nid == nid && Fields(v.payload).dir == dir && Fields(v.payload).index == index
    && if right then Fields(v.payload).right else Fields(v.payload).left
  }

  /** One channel of one amplifier after the verbs of log. */
  function AmpAt(log: seq<Verb>, nid: int, dir: Dir, index: nat, right: bool): AmpState
  {
    if log == [] then Unknown
    else
      var v := log[|log| - 1];
      if Addresses(v, nid, dir, index, right) then Amp(Fields(v.payload).mute, Fields(v.payload).gain)
      else AmpAt(log[..|log| - 1], nid, dir, index, right)
  }

  /** The control word pin nid was last sent. */
  function CtrlAt(log: seq<Verb>, nid: int): (r: (bool, bv32))
  {
    if log == [] then (false, 0)
    else
      var v := log[|log| - 1];
      if v.SetPinCtrl? && v.nid == nid then (true, v.ctrl) else CtrlAt(log[..|log| - 1], nid)
  }

  /** The connection nid was last told to select, -1 for none. */
  function SelectedAt(log: seq<Verb>, nid: int): int
  {
    if log == [] then -1
    else
      var v := log[|log| - 1];
      if v.SelectConn? && v.nid == nid then v.index else SelectedAt(log[..|log| - 1], nid)
  }

  lemma LogGrows(log: seq<Verb>, v: Verb)
    ensures (log + [v])[..|log + [v]| - 1] == log
  {
  }

  // ----- audioCtlAmpSet -----

  const KEEP: int := -1

  /** The left or right channel a control asks for. */
  function Effective(c: Control, right: bool): AmpState
  {
    if c.forcemute then Amp(true, 0)
    else if right then Amp(c.muted.1, if c.right < 0 then 0 else c.right)
    else Amp(c.muted.0, if c.left < 0 then 0 else c.left)
  }

  predicate LevelsInRange(c: Control)
  {
    c.index < 32 && 0 <= c.left < 0x80 && 0 <= c.right < 0x80 && c.offset < 0x80 && c.step < 0x80
  }

  /** The index under which the codec finds the control's amplifier. */
  function AmpIndex(c: Control): nat { c.index % 16 }

  predicate AmpOf(c: Control, nid: int, dir: Dir, index: nat)
  {
    c.widget == nid && c.dir == dir && AmpIndex(c) == index
  }

  predicate SameAmp(c: Control, d: Control)
  {
    AmpOf(c, d.widget, d.dir, AmpIndex(d))
  }

  function AmpOfControl(log: seq<Verb>, c: Control, right: bool): AmpState
  {
    AmpAt(log, c.widget, c.dir, AmpIndex(c), right)
  }

  /** The codec's state after control c has been written: both channels of its
      amplifier, and nothing else. */
  ghost predicate Written(log: seq<Verb>, log': seq<Verb>, c: Control)
  {
    && (forall nid, dir, index: nat, right ::
          AmpAt(log', nid, dir, index, right) ==
            if AmpOf(c, nid, dir, index) then Effective(c, right) else AmpAt(log, nid, dir, index, right))
    && (forall nid :: CtrlAt(log', nid) == CtrlAt(log, nid))
    && (forall nid :: SelectedAt(log', nid) == SelectedAt(log, nid))
  }

  /** audioCtlAmpSetInternal: one verb for both channels if they agree, else
      one for each.  An index from 16 on reaches the amplifier of 16 less: the
      verb for the left channel sets both, then the other one the right. */
  method AudioCtlAmpSetInternal(link: CodecLink, nid: int, index: nat, lmute: bool, rmute: bool, left: nat, right: nat,
                                dir: Dir)
    requires index < 32 && left < 0x80 && right < 0x80
    modifies link
    ensures forall n, d, i: nat, r :: AmpAt(link.log, n, d, i, r) ==
              if n == nid && d == dir && i == index % 16 then (if r then Amp(rmute, right) else Amp(lmute, left))
              else AmpAt(old(link.log), n, d, i, r)
    ensures forall n :: CtrlAt(link.log, n) == CtrlAt(old(link.log), n)
    ensures forall n :: SelectedAt(link.log, n) == SelectedAt(old(link.log), n)
  {
    ghost var log := link.log;
    if left != right || lmute != rmute {
      var w := AmpWrite(dir, true, false, index, lmute, left);
      PayloadFields(w);
      link.SendCommand(SetAmp(nid, Payload(w)));
      LogGrows(log, SetAmp(nid, Payload(w)));
      ghost var log1 := link.log;
      var w' := AmpWrite(dir, false, true, index, rmute, right);
      PayloadFields(w');
      link.SendCommand(SetAmp(nid, Payload(w')));
      LogGrows(log1, SetAmp(nid, Payload(w')));
    } else {
      var w := AmpWrite(dir, true, true, index, lmute, left);
      PayloadFields(w);
      link.SendCommand(SetAmp(nid, Payload(w)));
      LogGrows(log, SetAmp(nid, Payload(w)));
    }
  }

  /** What a call asks a control to remember; None keeps the mute bits, KEEP
      the gains. */
  datatype MuteArg = None | Some(bits: (bool, bool))

  function Remembered(c: Control, mute: MuteArg, left: int, right: int): Control
  {
    c.(muted := if mute.Some? then mute.bits else c.muted,
       left := if left != KEEP then left else c.left,
       right := if right != KEEP then right else c.right)
  }

  method AudioCtlAmpSet(fg: FunctionGroup, link: CodecLink, i: nat, mute: MuteArg, left: int, right: int)
    requires i < fg.controls.Length && LevelsInRange(Remembered(fg.controls[i], mute, left, right))
    modifies fg.controls, link
    ensures fg.controls[..] == old(fg.controls[..])[i := Remembered(old(fg.controls[i]), mute, left, right)]
    ensures Written(old(link.log), link.log, fg.controls[i])
  {
    if mute.Some? {
      fg.controls[i] := fg.controls[i].(muted := mute.bits);
    }
    if left != KEEP {
      fg.controls[i] := fg.controls[i].(left := left);
    }
    if right != KEEP {
      fg.controls[i] := fg.controls[i].(right := right);
    }
    var c := fg.controls[i];
    var lmute, rmute, l, r := true, true, 0, 0;
    if !c.forcemute {
      lmute, rmute, l, r := c.muted.0, c.muted.1, c.left, c.right;
    }
    AudioCtlAmpSetInternal(link, c.widget, c.index, lmute, rmute, l, r, c.dir);
  }

  // ----- The codec mirrors the tables -----

  /** No two controls are for the same amplifier. */
  predicate DistinctAmps(cs: seq<Control>)
  {
    forall c, d :: 0 <= c < d < |cs| ==> !SameAmp(cs[c], cs[d])
  }

  ghost predicate Mirrors(log: seq<Verb>, c: Control)
  {
    forall right :: AmpOfControl(log, c, right) == Effective(c, right)
  }

  ghost predicate PinsMirrored(ws: seq<Widget>, log: seq<Verb>, startNode: nat)
  {
    forall n :: startNode <= n < |ws| && ws[n].kind == PinComplex ==> CtrlAt(log, n) == (true, ws[n].ctrl)
  }

  ghost predicate SelectionsMirrored(ws: seq<Widget>, log: seq<Verb>, startNode: nat)
  {
    forall n :: startNode <= n < |ws| && 0 <= ws[n].selconn < |ws[n].conns| ==> SelectedAt(log, n) == ws[n].selconn
  }

  lemma WrittenMirrors(log: seq<Verb>, log': seq<Verb>, c: Control, d: Control)
    requires Written(log, log', c)
    ensures Mirrors(log', c)
    ensures Mirrors(log, d) && !SameAmp(c, d) ==> Mirrors(log', d)
  {
  }
}
