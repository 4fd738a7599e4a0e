/** The commands of tools/edit_layout.py on the pins of a layout. */
module LayoutEditor {
  import opened PinFields

  datatype Pin = Pin(nid: nat, config: nat)

  predicate PinsOk(pins: seq<Pin>)
  {
    forall i :: 0 <= i < |pins| ==> pins[i].nid < 0x100 && pins[i].config < WORD
  }

  predicate Has(pins: seq<Pin>, nid: int)
  {
    exists i :: 0 <= i < |pins| && pins[i].nid == nid
  }

  /** The pins with that node id rewritten. */
  function Rewritten(pins: seq<Pin>, nid: int, f: nat -> nat): (r: seq<Pin>)
    ensures |r| == |pins|
  {
    seq(|pins|, i requires 0 <= i < |pins| =>
      if pins[i].nid == nid then Pin(pins[i].nid, f(pins[i].config)) else pins[i])
  }

  /** The loop of a command over the pins; found tells whether any was hit. */
  method Rewrite(pins: seq<Pin>, nid: int, f: nat -> nat) returns (result: seq<Pin>, found: bool)
    ensures result == Rewritten(pins, nid, f) && found == Has(pins, nid)
  {
    result, found := [], false;
    var i := 0;
    while i < |pins|
      invariant 0 <= i <= |pins| && result == Rewritten(pins, nid, f)[..i]
      invariant found <==> exists k :: 0 <= k < i && pins[k].nid == nid
    {
      var pc := pins[i].config;
      if pins[i].nid == nid {
        pc := f(pc);
        found := true;
      }
      result := result + [Pin(pins[i].nid, pc)];
      i := i + 1;
    }
    assert Rewritten(pins, nid, f)[..i] == Rewritten(pins, nid, f);
  }

  // ----- set, disable, raw -----

  datatype Field = Connectivity | Location | Device | ConnType | Color | Misc | Assoc | Sequence

  function With(d: Fields, field: Field, value: int): Fields
  {
    match field
    case Connectivity => d.(connectivity := value)
    case Location => d.(location := value)
    case Device => d.(device := value)
    case ConnType => d.(connType := value)
    case Color => d.(color := value)
    case Misc => d.(misc := value)
    case Assoc => d.(assoc := value)
    case Sequence => d.(sequence := value)
  }

  function Get(d: Fields, field: Field): int
  {
    match field
    case Connectivity => d.connectivity
    case Location => d.location
    case Device => d.device
    case ConnType => d.connType
    case Color => d.color
    case Misc => d.misc
    case Assoc => d.assoc
    case Sequence => d.sequence
  }

  function Width(field: Field): nat
  {
    match field
    case Connectivity => 4
    case Location => 0x40
    case _ => 16
  }

  function SetField(field: Field, value: int): nat -> nat
  {
    (pc: nat) => EncodePin(With(DecodePin(pc), field, value))
  }

  lemma WithGet(d: Fields, field: Field, value: int, other: Field)
    requires Masked(d) == d
    ensures Get(Masked(With(d, field, value)), other) == if other == field then value % Width(field) else Get(d, other)
  {
  }

  lemma DecodedMasked(pc: nat)
    requires pc < WORD
    ensures Masked(DecodePin(pc)) == DecodePin(pc)
  {
    EncodeInvertsDecode(pc);
    DecodeInvertsEncode(DecodePin(pc));
  }

  /** The field gets the value, cut to its width; every other field stays. */
  lemma SetFieldSets(field: Field, value: int, pc: nat, other: Field)
    requires pc < WORD
    ensures Get(DecodePin(SetField(field, value)(pc)), other) ==
            if other == field then value % Width(field) else Get(DecodePin(pc), other)
  {
    DecodeInvertsEncode(With(DecodePin(pc), field, value));
    DecodedMasked(pc);
    WithGet(DecodePin(pc), field, value, other);
  }

  function Disabled(): nat -> nat
  {
    (pc: nat) => EncodePin(DecodePin(pc).(assoc := 0, sequence := 0, connectivity := 1))
  }

  function Raw(value: int): nat -> nat
  {
    (pc: nat) => value % WORD
  }

  /** A command's result: the rewritten pins, or the pins if none was hit. */
  function Edited(pins: seq<Pin>, nid: int, f: nat -> nat): seq<Pin>
  {
    if Has(pins, nid) then Rewritten(pins, nid, f) else pins
  }

  method CmdSet(pins: seq<Pin>, nid: int, field: Field, value: int) returns (result: seq<Pin>)
    ensures result == Edited(pins, nid, SetField(field, value))
  {
    var found;
    result, found := Rewrite(pins, nid, SetField(field, value));
    if !found {
      result := pins;
    }
  }

  method CmdDisable(pins: seq<Pin>, nid: int) returns (result: seq<Pin>)
    ensures result == Edited(pins, nid, Disabled())
  {
    var found;
    result, found := Rewrite(pins, nid, Disabled());
    if !found {
      result := pins;
    }
  }

  method CmdRaw(pins: seq<Pin>, nid: int, value: int) returns (result: seq<Pin>)
    ensures result == Edited(pins, nid, Raw(value))
  {
    var found;
    result, found := Rewrite(pins, nid, Raw(value));
    if !found {
      result := pins;
    }
  }

  // ----- move -----

  datatype Option = None | Some(value: int)

  /** Another pin of the association has the sequence. */
  predicate Used(pins: seq<Pin>, nid: int, assoc: int, sequence: int)
  {
    exists i :: 0 <= i < |pins| && pins[i].nid != nid
                && DecodePin(pins[i].config).assoc == assoc && DecodePin(pins[i].config).sequence == sequence
  }

  /** The lowest sequence from s on that is not used, 16 for none. */
  function FreeFrom(pins: seq<Pin>, nid: int, assoc: int, s: nat): nat
    requires s <= 16
    decreases 16 - s
  {
    if s == 16 || !Used(pins, nid, assoc, s) then s else FreeFrom(pins, nid, assoc, s + 1)
  }

  lemma {:induction false} FreeMeans(pins: seq<Pin>, nid: int, assoc: int, s: nat)
    requires s <= 16
    ensures var r := FreeFrom(pins, nid, assoc, s);
            && s <= r <= 16 && (r < 16 ==> !Used(pins, nid, assoc, r))
            && forall q :: s <= q < r ==> Used(pins, nid, assoc, q)
    decreases 16 - s
  {
    if s < 16 && Used(pins, nid, assoc, s) {
      FreeMeans(pins, nid, assoc, s + 1);
    }
  }

  method UsedSequences(pins: seq<Pin>, nid: int, assoc: int) returns (used: set<int>)
    ensures forall q :: q in used <==> Used(pins, nid, assoc, q)
  {
    used := {};
    var i := 0;
    while i < |pins|
      invariant 0 <= i <= |pins|
      invariant forall q :: q in used <==> Used(pins[..i], nid, assoc, q)
    {
      ghost var before, k := used, i;
      var d := DecodePin(pins[i].config);
      if d.assoc == assoc && pins[i].nid != nid {
        used := used + {d.sequence};
      }
      i := i + 1;
      UsedNext(pins, nid, assoc, k, i, before, used);
    }
    assert pins[..i] == pins;
  }

  lemma UsedNext(pins: seq<Pin>, nid: int, assoc: int, k: nat, next: nat, before: set<int>, after: set<int>)
    requires k < |pins| && next == k + 1
    requires forall q :: q in before <==> Used(pins[..k], nid, assoc, q)
    requires var d := DecodePin(pins[k].config);
             after == if d.assoc == assoc && pins[k].nid != nid then before + {d.sequence} else before
    ensures forall q :: q in after <==> Used(pins[..next], nid, assoc, q)
  {
    assert forall i :: 0 <= i < k ==> pins[..next][i] == pins[..k][i];
    assert pins[..next][k] == pins[k];
    forall q ensures q in after <==> Used(pins[..next], nid, assoc, q) {
    }
  }

  /** The sequence of a moved pin: the one asked for, or the lowest free one of
      the target, or its own if none is free. */
  function TargetSequence(pins: seq<Pin>, nid: int, assoc: int, sequence: Option, pc: nat): int
  {
    if sequence.Some? then sequence.value
    else if FreeFrom(pins, nid, assoc, 0) < 16 then FreeFrom(pins, nid, assoc, 0)
    else DecodePin(pc).sequence
  }

  /** A configuration at another place. */
  function At(pc: nat, assoc: int, sequence: int): nat
  {
    EncodePin(DecodePin(pc).(assoc := assoc, sequence := sequence))
  }

  lemma MaskedAt(d: Fields, assoc: int, sequence: int)
    requires Masked(d) == d && 0 <= assoc < 16 && 0 <= sequence < 16
    ensures Masked(d.(assoc := assoc, sequence := sequence)) == d.(assoc := assoc, sequence := sequence)
  {
  }

  lemma AtPlace(pc: nat, assoc: int, sequence: int)
    requires pc < WORD && 0 <= assoc < 16 && 0 <= sequence < 16
    ensures DecodePin(At(pc, assoc, sequence)) == DecodePin(pc).(assoc := assoc, sequence := sequence)
  {
    DecodedMasked(pc);
    MaskedAt(DecodePin(pc), assoc, sequence);
    DecodeInvertsEncode(DecodePin(pc).(assoc := assoc, sequence := sequence));
  }

  lemma PlaceInRange(pc: nat)
    ensures 0 <= DecodePin(pc).assoc < 16 && 0 <= DecodePin(pc).sequence < 16
  {
  }

  function Moved(pins: seq<Pin>, nid: int, assoc: int, sequence: Option): nat -> nat
  {
    (pc: nat) => At(pc, assoc, TargetSequence(pins, nid, assoc, sequence, pc))
  }

  predicate MoveOk(assoc: int, sequence: Option)
  {
    0 <= assoc <= 15 && (sequence.Some? ==> 0 <= sequence.value <= 15)
  }

  method FirstFree(used: set<int>) returns (s: nat)
    ensures s <= 16 && (s < 16 ==> s !in used) && forall q :: 0 <= q < s ==> q in used
  {
    s := 0;
    while s < 16 && s in used
      invariant s <= 16 && forall q :: 0 <= q < s ==> q in used
    {
      s := s + 1;
    }
  }

  method CmdMove(pins: seq<Pin>, nid: int, assoc: int, sequence: Option) returns (result: seq<Pin>)
    ensures result == if MoveOk(assoc, sequence) then Edited(pins, nid, Moved(pins, nid, assoc, sequence)) else pins
  {
    if !(0 <= assoc <= 15) {
      return pins;
    }
    if sequence.Some? && !(0 <= sequence.value <= 15) {
      return pins;
    }
    var used := UsedSequences(pins, nid, assoc);
    var s := FirstFree(used);
    FreeMeans(pins, nid, assoc, 0);
    assert s == FreeFrom(pins, nid, assoc, 0) by {
      var r := FreeFrom(pins, nid, assoc, 0);
      assert s < r ==> Used(pins, nid, assoc, s);
      assert r < s ==> r in used;
    }
    var found;
    result, found := Rewrite(pins, nid, Moved(pins, nid, assoc, sequence));
    if !found {
      result := pins;
    }
  }

  // ----- swap -----

  datatype Found = NoPin | Found(config: nat)

  /** The last pin with that node id; a pin with node id skip is passed over. */
  function LastOf(pins: seq<Pin>, nid: int, skip: int): Found
  {
    if pins == [] then NoPin
    else
      var p := pins[|pins| - 1];
      if p.nid == nid && p.nid != skip then Found(p.config) else LastOf(pins[..|pins| - 1], nid, skip)
  }

  /** Moves a configuration to the association and sequence of another. */
  function ToPlaceOf(place: nat): nat -> nat
  {
    (pc: nat) => At(pc, DecodePin(place).assoc, DecodePin(place).sequence)
  }

  function Swapped(pins: seq<Pin>, nid1: int, nid2: int, f1: nat -> nat, f2: nat -> nat): (r: seq<Pin>)
    ensures |r| == |pins|
  {
    seq(|pins|, i requires 0 <= i < |pins| =>
      if pins[i].nid == nid1 then Pin(pins[i].nid, f1(pins[i].config))
      else if pins[i].nid == nid2 then Pin(pins[i].nid, f2(pins[i].config))
      else pins[i])
  }

  function SwapResult(pins: seq<Pin>, nid1: int, nid2: int): seq<Pin>
  {
    var d1, d2 := LastOf(pins, nid1, -1), LastOf(pins, nid2, nid1);
    if d1.NoPin? || d2.NoPin? then pins
    else Swapped(pins, nid1, nid2, ToPlaceOf(d2.config), ToPlaceOf(d1.config))
  }

  predicate HasPin(pins: seq<Pin>, nid: int, config: nat)
  {
    exists i :: 0 <= i < |pins| && pins[i].nid == nid && pins[i].config == config
  }

  lemma {:induction false} LastOfIs(pins: seq<Pin>, nid: int, skip: int)
    ensures var d := LastOf(pins, nid, skip);
            if d.NoPin? then nid == skip || !Has(pins, nid) else nid != skip && HasPin(pins, nid, d.config)
  {
    if pins != [] {
      var front := pins[..|pins| - 1];
      LastOfIs(front, nid, skip);
      assert forall i :: 0 <= i < |front| ==> pins[i] == front[i];
    }
  }

  /** The two loops of the command: find both pins, rewrite both. */
  method CmdSwap(pins: seq<Pin>, nid1: int, nid2: int) returns (result: seq<Pin>)
    ensures result == SwapResult(pins, nid1, nid2)
  {
    var d1, d2 := NoPin, NoPin;
    var i := 0;
    while i < |pins|
      invariant 0 <= i <= |pins|
      invariant d1 == LastOf(pins[..i], nid1, -1) && d2 == LastOf(pins[..i], nid2, nid1)
    {
      assert pins[..i + 1][..i] == pins[..i];
      if pins[i].nid == nid1 {
        d1 := Found(pins[i].config);
      } else if pins[i].nid == nid2 {
        d2 := Found(pins[i].config);
      }
      i := i + 1;
    }
    assert pins[..i] == pins;
    if d1.NoPin? || d2.NoPin? {
      return pins;
    }
    result := SwapBoth(pins, nid1, nid2, ToPlaceOf(d2.config), ToPlaceOf(d1.config));
  }

  method SwapBoth(pins: seq<Pin>, nid1: int, nid2: int, f1: nat -> nat, f2: nat -> nat) returns (result: seq<Pin>)
    ensures result == Swapped(pins, nid1, nid2, f1, f2)
  {
    result := [];
    var i := 0;
    while i < |pins|
      invariant 0 <= i <= |pins| && result == Swapped(pins, nid1, nid2, f1, f2)[..i]
    {
      var pc := pins[i].config;
      if pins[i].nid == nid1 {
        pc := f1(pc);
      } else if pins[i].nid == nid2 {
        pc := f2(pc);
      }
      result := result + [Pin(pins[i].nid, pc)];
      i := i + 1;
    }
    assert Swapped(pins, nid1, nid2, f1, f2)[..i] == Swapped(pins, nid1, nid2, f1, f2);
  }

  // ----- What the commands guarantee -----

  predicate Distinct(pins: seq<Pin>)
  {
    forall i, j :: 0 <= i < j < |pins| ==> pins[i].nid != pins[j].nid
  }

  /** A moved pin lands in the association at its sequence; everything else of
      it stays. */
  lemma MovedPin(pins: seq<Pin>, nid: int, assoc: int, sequence: Option, pc: nat)
    requires MoveOk(assoc, sequence) && pc < WORD
    ensures var d := DecodePin(Moved(pins, nid, assoc, sequence)(pc));
            && d.assoc == assoc
            && (sequence.Some? ==> d.sequence == sequence.value)
            && (sequence.None? && FreeFrom(pins, nid, assoc, 0) < 16 ==>
                  !Used(pins, nid, assoc, d.sequence) && forall q :: 0 <= q < d.sequence ==> Used(pins, nid, assoc, q))
            && d == DecodePin(pc).(assoc := d.assoc, sequence := d.sequence)
  {
    FreeMeans(pins, nid, assoc, 0);
    PlaceInRange(pc);
    AtPlace(pc, assoc, TargetSequence(pins, nid, assoc, sequence, pc));
  }

  /** Placing a pin elsewhere and back is doing nothing. */
  lemma PlacedBack(pc: nat, place: nat)
    requires pc < WORD && place < WORD
    ensures ToPlaceOf(ToPlaceOf(pc)(place))(ToPlaceOf(place)(pc)) == pc
  {
    PlaceInRange(pc);
    PlaceInRange(place);
    AtPlace(place, DecodePin(pc).assoc, DecodePin(pc).sequence);
    AtPlace(pc, DecodePin(place).assoc, DecodePin(place).sequence);
    EncodeInvertsDecode(pc);
  }

  lemma UniquePin(pins: seq<Pin>, nid: int, pc: nat, e: nat)
    requires Distinct(pins) && HasPin(pins, nid, pc) && HasPin(pins, nid, e)
    ensures pc == e
  {
  }

  /** Swapping twice gives the layout back. */
  lemma SwapTwice(pins: seq<Pin>, nid1: int, nid2: int)
    requires PinsOk(pins) && Distinct(pins)
    ensures SwapResult(SwapResult(pins, nid1, nid2), nid1, nid2) == pins
  {
    var d1, d2 := LastOf(pins, nid1, -1), LastOf(pins, nid2, nid1);
    LastOfIs(pins, nid1, -1);
    LastOfIs(pins, nid2, nid1);
    if d1.Found? && d2.Found? {
      SwapBack(pins, nid1, nid2, d1.config, d2.config);
    }
  }

  lemma SwapBack(pins: seq<Pin>, nid1: int, nid2: int, pc1: nat, pc2: nat)
    requires PinsOk(pins) && Distinct(pins) && nid1 != nid2
    requires HasPin(pins, nid1, pc1) && HasPin(pins, nid2, pc2)
    ensures SwapResult(Swapped(pins, nid1, nid2, ToPlaceOf(pc2), ToPlaceOf(pc1)), nid1, nid2) == pins
  {
    var f1, f2 := ToPlaceOf(pc2), ToPlaceOf(pc1);
    var once := Swapped(pins, nid1, nid2, f1, f2);
    SwappedHas(pins, nid1, nid2, f1, f2, pc1, pc2);
    LastOfIs(once, nid1, -1);
    LastOfIs(once, nid2, nid1);
    var e1, e2 := LastOf(once, nid1, -1).config, LastOf(once, nid2, nid1).config;
    UniquePin(once, nid1, f1(pc1), e1);
    UniquePin(once, nid2, f2(pc2), e2);
    PlacedBack(pc1, pc2);
    PlacedBack(pc2, pc1);
    BothBack(pins, nid1, nid2, f1, f2, ToPlaceOf(e2), ToPlaceOf(e1), pc1, pc2);
  }

  lemma SwappedHas(pins: seq<Pin>, nid1: int, nid2: int, f1: nat -> nat, f2: nat -> nat, pc1: nat, pc2: nat)
    requires Distinct(pins) && nid1 != nid2 && HasPin(pins, nid1, pc1) && HasPin(pins, nid2, pc2)
    ensures var once := Swapped(pins, nid1, nid2, f1, f2);
            Distinct(once) && Has(once, nid1) && Has(once, nid2)
            && HasPin(once, nid1, f1(pc1)) && HasPin(once, nid2, f2(pc2))
  {
    var once := Swapped(pins, nid1, nid2, f1, f2);
    var i1 :| 0 <= i1 < |pins| && pins[i1].nid == nid1 && pins[i1].config == pc1;
    var i2 :| 0 <= i2 < |pins| && pins[i2].nid == nid2 && pins[i2].config == pc2;
    assert once[i1] == Pin(nid1, f1(pc1)) && once[i2] == Pin(nid2, f2(pc2));
  }

  lemma BothBack(pins: seq<Pin>, nid1: int, nid2: int,
                 f1: nat -> nat, f2: nat -> nat, g1: nat -> nat, g2: nat -> nat, pc1: nat, pc2: nat)
    requires Distinct(pins) && nid1 != nid2 && HasPin(pins, nid1, pc1) && HasPin(pins, nid2, pc2)
    requires g1(f1(pc1)) == pc1 && g2(f2(pc2)) == pc2
    ensures Swapped(Swapped(pins, nid1, nid2, f1, f2), nid1, nid2, g1, g2) == pins
  {
    forall i | 0 <= i < |pins| ensures Swapped(Swapped(pins, nid1, nid2, f1, f2), nid1, nid2, g1, g2)[i] == pins[i] {
      if pins[i].nid == nid1 {
        assert HasPin(pins, nid1, pins[i].config);
        UniquePin(pins, nid1, pins[i].config, pc1);
      } else if pins[i].nid == nid2 {
        assert HasPin(pins, nid2, pins[i].config);
        UniquePin(pins, nid2, pins[i].config, pc2);
      }
    }
  }

  // ----- Whole sessions -----

  datatype Command =
    | Move(nid: int, assoc: int, sequence: Option)
    | Set(nid: int, field: Field, value: int)
    | Disable(nid: int)
    | Swap(nid: int, other: int)
    | SetRaw(nid: int, value: int)

  function Execute(pins: seq<Pin>, c: Command): seq<Pin>
  {
    match c
    case Move(nid, assoc, sequence) =>
      if MoveOk(assoc, sequence) then Edited(pins, nid, Moved(pins, nid, assoc, sequence)) else pins
    case Set(nid, field, value) => Edited(pins, nid, SetField(field, value))
    case Disable(nid) => Edited(pins, nid, Disabled())
    case Swap(nid, other) => SwapResult(pins, nid, other)
    case SetRaw(nid, value) => Edited(pins, nid, Raw(value))
  }

  function Session(pins: seq<Pin>, cs: seq<Command>): seq<Pin>
  {
    if cs == [] then pins else Execute(Session(pins, cs[..|cs| - 1]), cs[|cs| - 1])
  }

  /** The same nodes in the same order, 32-bit configurations. */
  predicate SameNodes(pins: seq<Pin>, pins': seq<Pin>)
  {
    |pins'| == |pins| && forall i :: 0 <= i < |pins| ==> pins'[i].nid == pins[i].nid && pins'[i].config < WORD
  }

  /** No command adds, drops or reorders a node. */
  lemma {:induction false} SessionKeepsNodes(pins: seq<Pin>, cs: seq<Command>)
    requires PinsOk(pins)
    ensures SameNodes(pins, Session(pins, cs))
  {
    if cs != [] {
      SessionKeepsNodes(pins, cs[..|cs| - 1]);
    }
  }

  // ----- What the commands do to one pin -----

  /** A disabled pin: no device, association 0, sequence 0, the rest as it was. */
  lemma DisabledPin(pc: nat)
    requires pc < WORD
    ensures var d := DecodePin(Disabled()(pc));
            && d.connectivity == 1 && d.assoc == 0 && d.sequence == 0
            && d == DecodePin(pc).(connectivity := 1, assoc := 0, sequence := 0)
  {
    DecodedMasked(pc);
    DecodeInvertsEncode(DecodePin(pc).(assoc := 0, sequence := 0, connectivity := 1));
  }

  /** Two pins that are swapped exchange association and sequence and keep the
      other fields; every other pin stays. */
  lemma SwappedPlaces(pins: seq<Pin>, i: nat, k: nat)
    requires PinsOk(pins) && Distinct(pins) && i < |pins| && k < |pins| && i != k
    ensures var r := SwapResult(pins, pins[i].nid, pins[k].nid);
            && |r| == |pins| && r[i].nid == pins[i].nid && r[k].nid == pins[k].nid
            && DecodePin(r[i].config) == DecodePin(pins[i].config).(assoc := DecodePin(pins[k].config).assoc,
                                                                     sequence := DecodePin(pins[k].config).sequence)
            && DecodePin(r[k].config) == DecodePin(pins[k].config).(assoc := DecodePin(pins[i].config).assoc,
                                                                     sequence := DecodePin(pins[i].config).sequence)
            && forall m :: 0 <= m < |pins| && m != i && m != k ==> r[m] == pins[m]
  {
    var nid1, nid2 := pins[i].nid, pins[k].nid;
    LastOfIs(pins, nid1, -1);
    LastOfIs(pins, nid2, nid1);
    assert Has(pins, nid1) && Has(pins, nid2);
    UniquePin(pins, nid1, pins[i].config, LastOf(pins, nid1, -1).config);
    UniquePin(pins, nid2, pins[k].config, LastOf(pins, nid2, nid1).config);
    PlaceInRange(pins[i].config);
    PlaceInRange(pins[k].config);
    AtPlace(pins[i].config, DecodePin(pins[k].config).assoc, DecodePin(pins[k].config).sequence);
    AtPlace(pins[k].config, DecodePin(pins[i].config).assoc, DecodePin(pins[i].config).sequence);
  }
}
