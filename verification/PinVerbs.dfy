/** The configuration data of a layout: parse_verbs of tools/gen_pinconfigs.py
    and tools/edit_layout.py, and encode_config_data, its inverse. */
module PinVerbs {
  import opened PinFields
  import opened LayoutEditor

  const FIRST_BYTE: nat := 0x71C

  // ----- Verb words: address, node, verb, parameter -----

  function NidOf(word: nat): nat { word / 0x10_0000 % 0x100 }

  function VerbOf(word: nat): nat { word / 0x100 % 0x1000 }

  function ParamOf(word: nat): nat { word % 0x100 }

  /** SET_CONFIG_DEFAULT_BYTES 0 to 3. */
  predicate IsPinVerb(word: nat)
  {
    FIRST_BYTE <= VerbOf(word) <= FIRST_BYTE + 3
  }

  function MakeWord(cad: nat, nid: nat, verb: nat, param: nat): nat
  {
    cad % 16 * 0x1000_0000 + nid % 0x100 * 0x10_0000 + verb % 0x1000 * 0x100 + param
  }

  lemma WordFields(cad: nat, nid: nat, verb: nat, param: nat)
    requires cad < 16 && nid < 0x100 && verb < 0x1000 && param < 0x100
    ensures var w := MakeWord(cad, nid, verb, param);
            NidOf(w) == nid && VerbOf(w) == verb && ParamOf(w) == param && w < WORD
  {
    var w := MakeWord(cad, nid, verb, param);
    assert w / 0x100 == cad * 0x10_0000 + nid * 0x1000 + verb;
    assert w / 0x10_0000 == w / 0x100 / 0x1000 == cad * 0x100 + nid;
  }

  function ConfigByte(pc: nat, k: nat): nat
    requires k < 4
  {
    if k == 0 then pc % 0x100 else if k == 1 then pc / 0x100 % 0x100
    else if k == 2 then pc / 0x1_0000 % 0x100 else pc / 0x100_0000 % 0x100
  }

  function Join(b0: nat, b1: nat, b2: nat, b3: nat): nat
  {
    b3 * 0x100_0000 + b2 * 0x1_0000 + b1 * 0x100 + b0
  }

  lemma BytesJoin(pc: nat)
    requires pc < WORD
    ensures Join(ConfigByte(pc, 0), ConfigByte(pc, 1), ConfigByte(pc, 2), ConfigByte(pc, 3)) == pc
  {
    assert pc / 0x1_0000 == pc / 0x100 / 0x100 && pc / 0x100_0000 == pc / 0x1_0000 / 0x100;
    assert pc / 0x100_0000 < 0x100;
  }

  // ----- What a list of words says -----

  datatype Param = Absent | Present(value: nat)

  /** Byte k of the configuration of node nid: the last word for it decides. */
  function ByteFor(words: seq<nat>, nid: nat, k: nat): Param
  {
    if words == [] then Absent
    else
      var w := words[|words| - 1];
      if NidOf(w) == nid && VerbOf(w) == FIRST_BYTE + k then Present(ParamOf(w))
      else ByteFor(words[..|words| - 1], nid, k)
  }

  /** The configuration of a node, when all four bytes are there. */
  function ConfigFor(words: seq<nat>, nid: nat): Param
  {
    var b0, b1, b2, b3 := ByteFor(words, nid, 0), ByteFor(words, nid, 1), ByteFor(words, nid, 2),
        ByteFor(words, nid, 3);
    if b0.Present? && b1.Present? && b2.Present? && b3.Present? then
      Present(Join(b0.value, b1.value, b2.value, b3.value))
    else Absent
  }

  /** The configured nodes from lo on, in ascending order. */
  function Listed(config: nat -> Param, lo: nat): seq<Pin>
    requires lo <= 0x100
    decreases 0x100 - lo
  {
    if lo == 0x100 then []
    else (if config(lo).Present? then [Pin(lo, config(lo).value)] else []) + Listed(config, lo + 1)
  }

  function ConfigsOf(words: seq<nat>): nat -> Param
  {
    (nid: nat) => ConfigFor(words, nid)
  }

  /** The pins of a list of words. */
  function PinsIn(words: seq<nat>): seq<Pin>
  {
    Listed(ConfigsOf(words), 0)
  }

  /** The other verbs, without the codec address. */
  function Extras(words: seq<nat>): seq<nat>
  {
    if words == [] then []
    else
      var w := words[|words| - 1];
      Extras(words[..|words| - 1]) + if IsPinVerb(w) then [] else [w % 0x1000_0000]
  }

  // ----- Bytes, big end first -----

  function WordAt(data: seq<nat>, i: nat): nat
    requires 4 * i + 4 <= |data|
  {
    data[4 * i] * 0x100_0000 + data[4 * i + 1] * 0x1_0000 + data[4 * i + 2] * 0x100 + data[4 * i + 3]
  }

  function WordsOf(data: seq<nat>): seq<nat>
    requires |data| % 4 == 0
  {
    seq(|data| / 4, i requires 0 <= i < |data| / 4 => WordAt(data, i))
  }

  function PackWord(w: nat): seq<nat>
  {
    [ConfigByte(w, 3), ConfigByte(w, 2), ConfigByte(w, 1), ConfigByte(w, 0)]
  }

  function BytesOf(words: seq<nat>): (data: seq<nat>)
    ensures |data| == 4 * |words|
  {
    if words == [] then [] else BytesOf(words[..|words| - 1]) + PackWord(words[|words| - 1])
  }

  lemma {:induction false} PackedAt(words: seq<nat>, i: nat)
    requires i < |words| && forall k :: 0 <= k < |words| ==> words[k] < WORD
    ensures WordAt(BytesOf(words), i) == words[i]
  {
    var front := words[..|words| - 1];
    var b := BytesOf(words);
    if i < |words| - 1 {
      PackedAt(front, i);
      assert b[..4 * |front|] == BytesOf(front);
      assert WordAt(b, i) == WordAt(BytesOf(front), i);
    } else {
      BytesJoin(words[i]);
      assert b[4 * i..4 * i + 4] == PackWord(words[i]);
      assert b[4 * i..4 * i + 4][0] == b[4 * i] && b[4 * i..4 * i + 4][1] == b[4 * i + 1];
      assert b[4 * i..4 * i + 4][2] == b[4 * i + 2] && b[4 * i..4 * i + 4][3] == b[4 * i + 3];
    }
  }

  lemma FourTimes(n: nat)
    ensures 4 * n % 4 == 0 && 4 * n / 4 == n
  {
  }

  lemma PackInverts(words: seq<nat>)
    requires forall k :: 0 <= k < |words| ==> words[k] < WORD
    ensures WordsOf(BytesOf(words)) == words
  {
    var data := BytesOf(words);
    FourTimes(|words|);
    forall i: nat | i < |words| ensures WordsOf(data)[i] == words[i] {
      PackedAt(words, i);
      assert WordsOf(data)[i] == WordAt(data, i);
    }
  }

  // ----- parse_verbs -----

  /** Every node's bytes seen so far are in the dictionary, and no others. */
  ghost predicate Collected(words: seq<nat>, verbs: map<nat, map<nat, nat>>)
  {
    forall nid: nat, k: nat :: k < 4 ==>
      ByteFor(words, nid, k) ==
        if nid in verbs && FIRST_BYTE + k in verbs[nid] then Present(verbs[nid][FIRST_BYTE + k]) else Absent
  }

  lemma CollectedNext(words: seq<nat>, w: nat, verbs: map<nat, map<nat, nat>>, verbs': map<nat, map<nat, nat>>)
    requires Collected(words, verbs)
    requires verbs' == if IsPinVerb(w)
                       then verbs[NidOf(w) :=
                                    (if NidOf(w) in verbs then verbs[NidOf(w)] else map[])[VerbOf(w) := ParamOf(w)]]
                       else verbs
    ensures Collected(words + [w], verbs')
  {
    assert (words + [w])[..|words + [w]| - 1] == words;
    forall nid: nat, k: nat | k < 4
      ensures ByteFor(words + [w], nid, k) ==
                if nid in verbs' && FIRST_BYTE + k in verbs'[nid] then Present(verbs'[nid][FIRST_BYTE + k]) else Absent
    {
      assert ByteFor(words, nid, k) ==
               if nid in verbs && FIRST_BYTE + k in verbs[nid] then Present(verbs[nid][FIRST_BYTE + k]) else Absent;
    }
  }

  /** All four bytes of a node are in the dictionary. */
  predicate Complete(verbs: map<nat, map<nat, nat>>, nid: nat)
  {
    && nid in verbs && FIRST_BYTE in verbs[nid] && FIRST_BYTE + 1 in verbs[nid]
    && FIRST_BYTE + 2 in verbs[nid] && FIRST_BYTE + 3 in verbs[nid]
  }

  /** The configuration the dictionary holds for a node. */
  function Assembled(verbs: map<nat, map<nat, nat>>, nid: nat): Param
  {
    if Complete(verbs, nid) then
      Present(Join(verbs[nid][FIRST_BYTE], verbs[nid][FIRST_BYTE + 1], verbs[nid][FIRST_BYTE + 2],
                   verbs[nid][FIRST_BYTE + 3]))
    else Absent
  }

  lemma CollectedConfig(words: seq<nat>, verbs: map<nat, map<nat, nat>>, nid: nat)
    requires Collected(words, verbs)
    ensures ConfigsOf(words)(nid) == Assembled(verbs, nid)
  {
    forall k: nat | k < 4
      ensures ByteFor(words, nid, k) ==
                if nid in verbs && FIRST_BYTE + k in verbs[nid] then Present(verbs[nid][FIRST_BYTE + k]) else Absent
    {
    }
    assert FIRST_BYTE + 0 == FIRST_BYTE;
  }

  method Assemble(verbs: map<nat, map<nat, nat>>, nid: nat) returns (pc: Param)
    ensures pc == Assembled(verbs, nid)
  {
    if !Complete(verbs, nid) {
      return Absent;
    }
    var m := verbs[nid];
    pc := Present(Join(m[FIRST_BYTE], m[FIRST_BYTE + 1], m[FIRST_BYTE + 2], m[FIRST_BYTE + 3]));
  }

  lemma ListedStep(config: nat -> Param, pins: seq<Pin>, nid: nat)
    requires nid < 0x100
    ensures config(nid).Absent? ==> pins + Listed(config, nid) == pins + Listed(config, nid + 1)
    ensures config(nid).Present? ==>
              pins + Listed(config, nid) == pins + [Pin(nid, config(nid).value)] + Listed(config, nid + 1)
  {
  }

  /** The pins of the dictionary, node by node; a node with fewer than four
      bytes is dropped.  Node ids have eight bits, so counting up visits the
      keys in sorted order. */
  method PinsOf(verbs: map<nat, map<nat, nat>>, ghost config: nat -> Param) returns (pins: seq<Pin>)
    requires forall nid: nat :: config(nid) == Assembled(verbs, nid)
    ensures pins == Listed(config, 0)
  {
    pins := [];
    var nid: nat := 0;
    ghost var all := Listed(config, nid);
    while nid < 0x100
      invariant nid <= 0x100
      invariant pins + Listed(config, nid) == all
    {
      var pc := Assemble(verbs, nid);
      assert config(nid) == pc;
      ListedStep(config, pins, nid);
      if pc.Present? {
        pins := pins + [Pin(nid, pc.value)];
      }
      nid := nid + 1;
    }
  }

  /** parse_verbs; data that is not a whole number of words yields nothing. */
  method ParseVerbs(data: seq<nat>) returns (pins: seq<Pin>, extras: seq<nat>)
    ensures if |data| % 4 == 0 then pins == PinsIn(WordsOf(data)) && extras == Extras(WordsOf(data))
            else pins == [] && extras == []
  {
    if |data| % 4 != 0 {
      return [], [];
    }
    var words := WordsOf(data);
    var verbs: map<nat, map<nat, nat>> := map[];
    extras := [];
    var i := 0;
    while i < |words|
      invariant 0 <= i <= |words|
      invariant Collected(words[..i], verbs) && extras == Extras(words[..i])
    {
      ghost var before := verbs;
      var w := words[i];
      assert words[..i + 1] == words[..i] + [w] && words[..i + 1][..i] == words[..i];
      if IsPinVerb(w) {
        var m: map<nat, nat> := if NidOf(w) in verbs then verbs[NidOf(w)] else map[];
        verbs := verbs[NidOf(w) := m[VerbOf(w) := ParamOf(w)]];
      } else {
        extras := extras + [w % 0x1000_0000];
      }
      CollectedNext(words[..i], w, before, verbs);
      i := i + 1;
    }
    assert words[..i] == words;
    forall nid: nat ensures ConfigsOf(words)(nid) == Assembled(verbs, nid) {
      CollectedConfig(words, verbs, nid);
    }
    pins := PinsOf(verbs, ConfigsOf(words));
  }

  // ----- encode_config_data -----

  function PinWord(cad: nat, p: Pin, k: nat): nat
    requires k < 4
  {
    MakeWord(cad, p.nid, FIRST_BYTE + k, ConfigByte(p.config, k))
  }

  function PinWords(pins: seq<Pin>, cad: nat): seq<nat>
  {
    if pins == [] then []
    else
      var p := pins[|pins| - 1];
      PinWords(pins[..|pins| - 1], cad) + [PinWord(cad, p, 0), PinWord(cad, p, 1), PinWord(cad, p, 2),
                                           PinWord(cad, p, 3)]
  }

  /** An extra verb sent to a codec address. */
  function Addressed(v: nat, cad: nat): nat
  {
    cad * 0x1000_0000 + v % 0x1000_0000
  }

  function ExtraWords(extras: seq<nat>, cad: nat): seq<nat>
  {
    if extras == [] then []
    else ExtraWords(extras[..|extras| - 1], cad) + [Addressed(extras[|extras| - 1], cad)]
  }

  function EncodeWords(pins: seq<Pin>, extras: seq<nat>, cad: nat): seq<nat>
  {
    PinWords(pins, cad) + ExtraWords(extras, cad)
  }

  method EncodeConfigData(pins: seq<Pin>, extras: seq<nat>, cad: nat) returns (data: seq<nat>)
    ensures data == BytesOf(EncodeWords(pins, extras, cad))
  {
    var words := [];
    var i := 0;
    while i < |pins|
      invariant 0 <= i <= |pins| && words == PinWords(pins[..i], cad)
    {
      assert pins[..i + 1][..i] == pins[..i];
      var k := 0;
      ghost var before := words;
      while k < 4
        invariant 0 <= k <= 4
        invariant words == before + [PinWord(cad, pins[i], 0), PinWord(cad, pins[i], 1), PinWord(cad, pins[i], 2),
                                     PinWord(cad, pins[i], 3)][..k]
      {
        words := words + [PinWord(cad, pins[i], k)];
        k := k + 1;
      }
      i := i + 1;
    }
    assert pins[..i] == pins;
    var j := 0;
    while j < |extras|
      invariant 0 <= j <= |extras| && words == PinWords(pins, cad) + ExtraWords(extras[..j], cad)
    {
      assert extras[..j + 1][..j] == extras[..j];
      words := words + [Addressed(extras[j], cad)];
      j := j + 1;
    }
    assert extras[..j] == extras;
    data := BytesOf(words);
  }

  // ----- Encoding and parsing are inverse -----

  lemma {:induction false} ByteForBoth(a: seq<nat>, b: seq<nat>, nid: nat, k: nat)
    ensures ByteFor(a + b, nid, k) == if ByteFor(b, nid, k).Present? then ByteFor(b, nid, k) else ByteFor(a, nid, k)
    decreases |b|
  {
    if b == [] {
      assert a + b == a;
    } else {
      assert (a + b)[..|a + b| - 1] == a + b[..|b| - 1];
      ByteForBoth(a, b[..|b| - 1], nid, k);
    }
  }

  lemma {:induction false} ExtrasBoth(a: seq<nat>, b: seq<nat>)
    ensures Extras(a + b) == Extras(a) + Extras(b)
    decreases |b|
  {
    if b == [] {
      assert a + b == a;
    } else {
      assert (a + b)[..|a + b| - 1] == a + b[..|b| - 1];
      ExtrasBoth(a, b[..|b| - 1]);
    }
  }

  /** An extra verb as parse_verbs stores them. */
  predicate ExtraOk(v: nat)
  {
    v < 0x1000_0000 && !IsPinVerb(v)
  }

  lemma ExtraWord(v: nat, cad: nat)
    requires ExtraOk(v) && cad < 16
    ensures var w := Addressed(v, cad); !IsPinVerb(w) && w % 0x1000_0000 == v && w < WORD
  {
    CutVerb(Addressed(v, cad));
  }

  lemma OneWord(w: nat, nid: nat, k: nat)
    ensures ByteFor([w], nid, k) ==
            if NidOf(w) == nid && VerbOf(w) == FIRST_BYTE + k then Present(ParamOf(w)) else Absent
    ensures Extras([w]) == if IsPinVerb(w) then [] else [w % 0x1000_0000]
  {
    assert [w][..0] == [];
  }

  lemma {:induction false} ExtraWordsParse(extras: seq<nat>, cad: nat, nid: nat, k: nat)
    requires cad < 16 && k < 4 && forall i :: 0 <= i < |extras| ==> ExtraOk(extras[i])
    ensures ByteFor(ExtraWords(extras, cad), nid, k) == Absent && Extras(ExtraWords(extras, cad)) == extras
  {
    if extras != [] {
      var front, v := extras[..|extras| - 1], extras[|extras| - 1];
      ExtraWordsParse(front, cad, nid, k);
      ExtraWord(v, cad);
      ExtraMore(ExtraWords(front, cad), front, Addressed(v, cad), v, nid, k);
      assert extras == front + [v];
    }
  }

  lemma {:induction false} ExtraWordsBound(extras: seq<nat>, cad: nat)
    requires cad < 16
    ensures forall i :: 0 <= i < |ExtraWords(extras, cad)| ==> ExtraWords(extras, cad)[i] < WORD
  {
    if extras != [] {
      ExtraWordsBound(extras[..|extras| - 1], cad);
    }
  }

  lemma ExtraMore(words: seq<nat>, extras: seq<nat>, w: nat, v: nat, nid: nat, k: nat)
    requires ByteFor(words, nid, k) == Absent && Extras(words) == extras && k < 4
    requires !IsPinVerb(w) && w % 0x1000_0000 == v
    ensures ByteFor(words + [w], nid, k) == Absent && Extras(words + [w]) == extras + [v]
  {
    OneWord(w, nid, k);
    ByteForBoth(words, [w], nid, k);
    ExtrasBoth(words, [w]);
  }

  function ByteFound(d: Found, k: nat): Param
    requires k < 4
  {
    if d.NoPin? then Absent else Present(ConfigByte(d.config, k))
  }

  lemma FourWords(p: Pin, cad: nat, nid: nat, k: nat)
    requires cad < 16 && k < 4 && p.nid < 0x100
    ensures var four := [PinWord(cad, p, 0), PinWord(cad, p, 1), PinWord(cad, p, 2), PinWord(cad, p, 3)];
            && ByteFor(four, nid, k) == (if nid == p.nid then Present(ConfigByte(p.config, k)) else Absent)
            && Extras(four) == [] && forall i :: 0 <= i < 4 ==> four[i] < WORD
  {
    var w0, w1, w2, w3 := PinWord(cad, p, 0), PinWord(cad, p, 1), PinWord(cad, p, 2), PinWord(cad, p, 3);
    WordFields(cad, p.nid, FIRST_BYTE, ConfigByte(p.config, 0));
    WordFields(cad, p.nid, FIRST_BYTE + 1, ConfigByte(p.config, 1));
    WordFields(cad, p.nid, FIRST_BYTE + 2, ConfigByte(p.config, 2));
    WordFields(cad, p.nid, FIRST_BYTE + 3, ConfigByte(p.config, 3));
    FourAny(w0, w1, w2, w3, p.nid, nid, k);
  }

  lemma FourAny(w0: nat, w1: nat, w2: nat, w3: nat, nid0: nat, nid: nat, k: nat)
    requires NidOf(w0) == NidOf(w1) == NidOf(w2) == NidOf(w3) == nid0 && k < 4
    requires VerbOf(w0) == FIRST_BYTE && VerbOf(w1) == FIRST_BYTE + 1 && VerbOf(w2) == FIRST_BYTE + 2
    requires VerbOf(w3) == FIRST_BYTE + 3
    ensures ByteFor([w0, w1, w2, w3], nid, k) ==
              if nid == nid0 then Present(ParamOf([w0, w1, w2, w3][k])) else Absent
    ensures Extras([w0, w1, w2, w3]) == []
  {
    OneWord(w0, nid, k);
    OneWord(w1, nid, k);
    OneWord(w2, nid, k);
    OneWord(w3, nid, k);
    ByteForBoth([w0], [w1], nid, k);
    ByteForBoth([w2], [w3], nid, k);
    ByteForBoth([w0] + [w1], [w2] + [w3], nid, k);
    ExtrasBoth([w0], [w1]);
    ExtrasBoth([w2], [w3]);
    ExtrasBoth([w0] + [w1], [w2] + [w3]);
    assert [w0, w1, w2, w3] == [w0] + [w1] + ([w2] + [w3]);
  }

  lemma {:induction false} PinWordsParse(pins: seq<Pin>, cad: nat, nid: nat, k: nat)
    requires cad < 16 && k < 4 && PinsOk(pins)
    ensures ByteFor(PinWords(pins, cad), nid, k) == ByteFound(LastOf(pins, nid, -1), k)
    ensures Extras(PinWords(pins, cad)) == []
    ensures forall i :: 0 <= i < |PinWords(pins, cad)| ==> PinWords(pins, cad)[i] < WORD
  {
    if pins != [] {
      var front, p := pins[..|pins| - 1], pins[|pins| - 1];
      PinWordsParse(front, cad, nid, k);
      FourWords(p, cad, nid, k);
      var four := [PinWord(cad, p, 0), PinWord(cad, p, 1), PinWord(cad, p, 2), PinWord(cad, p, 3)];
      ByteForBoth(PinWords(front, cad), four, nid, k);
      ExtrasBoth(PinWords(front, cad), four);
    }
  }

  /** The configuration read back for a node is that of its last pin. */
  lemma ConfigEncoded(pins: seq<Pin>, extras: seq<nat>, cad: nat, nid: nat)
    requires cad < 16 && PinsOk(pins) && forall i :: 0 <= i < |extras| ==> ExtraOk(extras[i])
    ensures var d := LastOf(pins, nid, -1);
            ConfigFor(EncodeWords(pins, extras, cad), nid) == if d.NoPin? then Absent else Present(d.config)
  {
    forall k: nat | k < 4
      ensures ByteFor(EncodeWords(pins, extras, cad), nid, k) == ByteFound(LastOf(pins, nid, -1), k)
    {
      ByteForBoth(PinWords(pins, cad), ExtraWords(extras, cad), nid, k);
      PinWordsParse(pins, cad, nid, k);
      ExtraWordsParse(extras, cad, nid, k);
    }
    LastOfIs(pins, nid, -1);
    if LastOf(pins, nid, -1).Found? {
      BytesJoin(LastOf(pins, nid, -1).config);
    }
  }

  predicate Ascending(pins: seq<Pin>)
  {
    forall i, j :: 0 <= i < j < |pins| ==> pins[i].nid < pins[j].nid
  }

  lemma {:induction false} ListedAscending(pins: seq<Pin>, config: nat -> Param, lo: nat, i: nat)
    requires PinsOk(pins) && Ascending(pins) && lo <= 0x100 && i <= |pins|
    requires forall nid: nat :: config(nid).Present? ==> HasPin(pins, nid, config(nid).value)
    requires forall k :: 0 <= k < |pins| ==> config(pins[k].nid) == Present(pins[k].config)
    requires (forall k :: 0 <= k < i ==> pins[k].nid < lo) && forall k :: i <= k < |pins| ==> lo <= pins[k].nid
    ensures Listed(config, lo) == pins[i..]
    decreases 0x100 - lo
  {
    if lo < 0x100 {
      if i < |pins| && pins[i].nid == lo {
        ListedAscending(pins, config, lo + 1, i + 1);
        assert pins[i..] == [pins[i]] + pins[i + 1..];
      } else {
        assert forall v: nat :: !HasPin(pins, lo, v);
        ListedAscending(pins, config, lo + 1, i);
      }
    }
  }

  /** parse_verbs inverts encode_config_data for pins in ascending order of
      their nodes and extra verbs of its own making, at any codec address. */
  lemma ParseInvertsEncode(pins: seq<Pin>, extras: seq<nat>, cad: nat)
    requires cad < 16 && PinsOk(pins) && Ascending(pins) && forall i :: 0 <= i < |extras| ==> ExtraOk(extras[i])
    ensures var data := BytesOf(EncodeWords(pins, extras, cad));
            |data| % 4 == 0 && PinsIn(WordsOf(data)) == pins && Extras(WordsOf(data)) == extras
  {
    var words := EncodeWords(pins, extras, cad);
    PinWordsParse(pins, cad, 0, 0);
    ExtraWordsParse(extras, cad, 0, 0);
    ExtraWordsBound(extras, cad);
    PackInverts(words);
    ExtrasBoth(PinWords(pins, cad), ExtraWords(extras, cad));
    var config := ConfigsOf(words);
    forall nid: nat ensures config(nid).Present? ==> HasPin(pins, nid, config(nid).value) {
      ConfigEncoded(pins, extras, cad, nid);
      LastOfIs(pins, nid, -1);
    }
    forall k | 0 <= k < |pins| ensures config(pins[k].nid) == Present(pins[k].config) {
      ConfigEncoded(pins, extras, cad, pins[k].nid);
      LastOfIs(pins, pins[k].nid, -1);
    }
    ListedAscending(pins, config, 0, 0);
  }

  // ----- What parsing yields -----

  lemma {:induction false} ListedOk(config: nat -> Param, lo: nat)
    requires lo <= 0x100 && forall nid: nat :: config(nid).Present? ==> config(nid).value < WORD
    ensures PinsOk(Listed(config, lo)) && Ascending(Listed(config, lo))
    ensures forall i :: 0 <= i < |Listed(config, lo)| ==> lo <= Listed(config, lo)[i].nid
    decreases 0x100 - lo
  {
    if lo < 0x100 {
      ListedOk(config, lo + 1);
    }
  }

  lemma ParsedPinsOk(words: seq<nat>)
    ensures PinsOk(PinsIn(words)) && Ascending(PinsIn(words))
  {
    forall nid: nat ensures ConfigsOf(words)(nid).Present? ==> ConfigsOf(words)(nid).value < WORD {
      ParamsAreBytes(words, nid, 0);
      ParamsAreBytes(words, nid, 1);
      ParamsAreBytes(words, nid, 2);
      ParamsAreBytes(words, nid, 3);
    }
    ListedOk(ConfigsOf(words), 0);
  }

  lemma {:induction false} ParamsAreBytes(words: seq<nat>, nid: nat, k: nat)
    ensures ByteFor(words, nid, k).Present? ==> ByteFor(words, nid, k).value < 0x100
  {
    if words != [] {
      ParamsAreBytes(words[..|words| - 1], nid, k);
    }
  }

  /** Without the codec address a word has the same verb. */
  lemma CutVerb(w: nat)
    ensures VerbOf(w % 0x1000_0000) == VerbOf(w)
  {
    var q, r := w / 0x1000_0000, w % 0x1000_0000;
    assert w / 0x100 == q * 0x100 * 0x1000 + r / 0x100;
    ModShift(r / 0x100, q * 0x100);
  }

  lemma ModShift(y: nat, m: nat)
    ensures (m * 0x1000 + y) % 0x1000 == y % 0x1000
  {
    assert m * 0x1000 + y == (m + y / 0x1000) * 0x1000 + y % 0x1000;
  }

  lemma {:induction false} ParsedExtrasOk(words: seq<nat>)
    ensures forall i :: 0 <= i < |Extras(words)| ==> ExtraOk(Extras(words)[i])
  {
    if words != [] {
      ParsedExtrasOk(words[..|words| - 1]);
      var w := words[|words| - 1];
      CutVerb(w);
    }
  }

  /** A layout that is loaded, edited by any commands and saved is loaded again
      as it was edited. */
  lemma SaveThenLoad(words: seq<nat>, cs: seq<Command>, cad: nat)
    requires cad < 16
    ensures var pins := Session(PinsIn(words), cs);
            var data := BytesOf(EncodeWords(pins, Extras(words), cad));
            |data| % 4 == 0 && PinsIn(WordsOf(data)) == pins && Extras(WordsOf(data)) == Extras(words)
  {
    var pins := PinsIn(words);
    ParsedPinsOk(words);
    ParsedExtrasOk(words);
    SessionKeepsNodes(pins, cs);
    ParseInvertsEncode(Session(pins, cs), Extras(words), cad);
  }
}
