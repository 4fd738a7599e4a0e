/** What configuration data says, in the numbers of the HD Audio specification
    (section 7.3.3.31): a word holds the codec address in its top four bits, then
    eight bits of node id, twelve of verb and eight of parameter, and the verbs
    0x71C to 0x71F set the four bytes of a configuration, the lowest first. */
module VerbNumbers {
  import opened PinFields
  import opened LayoutEditor
  import opened PinVerbs

  /** The word sets byte k of the configuration of node nid. */
  predicate SetsByte(word: nat, nid: nat, k: nat)
  {
    word / 0x10_0000 % 0x100 == nid && word / 0x100 % 0x1000 == 0x71C + k
  }

  /** The last word that sets byte k of node nid sets it to b. */
  ghost predicate LastByte(words: seq<nat>, nid: nat, k: nat, b: nat)
  {
    exists i :: LastSetAt(words, nid, k, i) && words[i] % 0x100 == b
  }

  predicate LastSetAt(words: seq<nat>, nid: nat, k: nat, i: int)
  {
    0 <= i < |words| && SetsByte(words[i], nid, k) && forall j :: i < j < |words| ==> !SetsByte(words[j], nid, k)
  }

  lemma {:induction false} ByteForIs(words: seq<nat>, nid: nat, k: nat, b: nat)
    ensures ByteFor(words, nid, k) == Present(b) <==> LastByte(words, nid, k, b)
  {
    if words != [] {
      var front, i := words[..|words| - 1], |words| - 1;
      ByteForIs(front, nid, k, b);
      if SetsByte(words[i], nid, k) {
        assert LastSetAt(words, nid, k, i);
      } else {
        assert forall j :: LastSetAt(words, nid, k, j) <==> LastSetAt(front, nid, k, j);
      }
    }
  }

  lemma {:induction false} ListedHas(config: nat -> Param, lo: nat, p: Pin)
    requires lo <= 0x100
    ensures p in Listed(config, lo) <==> lo <= p.nid < 0x100 && config(p.nid) == Present(p.config)
    decreases 0x100 - lo
  {
    if lo < 0x100 {
      ListedHas(config, lo + 1, p);
    }
  }

  /** c is made of the last settings of the four bytes of node nid. */
  ghost predicate LastConfig(words: seq<nat>, nid: nat, c: nat)
  {
    exists b0: nat, b1: nat, b2: nat, b3: nat ::
      && LastByte(words, nid, 0, b0) && LastByte(words, nid, 1, b1)
      && LastByte(words, nid, 2, b2) && LastByte(words, nid, 3, b3)
      && c == b3 * 16777216 + b2 * 65536 + b1 * 256 + b0
  }

  lemma ConfigForIs(words: seq<nat>, nid: nat, c: nat)
    ensures ConfigFor(words, nid) == Present(c) <==> LastConfig(words, nid, c)
  {
    if ConfigFor(words, nid) == Present(c) {
      ByteForIs(words, nid, 0, ByteFor(words, nid, 0).value);
      ByteForIs(words, nid, 1, ByteFor(words, nid, 1).value);
      ByteForIs(words, nid, 2, ByteFor(words, nid, 2).value);
      ByteForIs(words, nid, 3, ByteFor(words, nid, 3).value);
    }
    if b0: nat, b1: nat, b2: nat, b3: nat :|
       && LastByte(words, nid, 0, b0) && LastByte(words, nid, 1, b1)
       && LastByte(words, nid, 2, b2) && LastByte(words, nid, 3, b3)
       && c == b3 * 16777216 + b2 * 65536 + b1 * 256 + b0 {
      ByteForIs(words, nid, 0, b0);
      ByteForIs(words, nid, 1, b1);
      ByteForIs(words, nid, 2, b2);
      ByteForIs(words, nid, 3, b3);
    }
  }

  /** Node nid is listed with configuration c exactly when the words set all four
      of its bytes and c is made of the last setting of each. */
  lemma PinParsed(words: seq<nat>, nid: nat, c: nat)
    ensures Pin(nid, c) in PinsIn(words) <==> nid < 256 && LastConfig(words, nid, c)
  {
    ListedHas(ConfigsOf(words), 0, Pin(nid, c));
    ConfigForIs(words, nid, c);
  }

  /** Word i sets no configuration byte and is v but for the codec address. */
  predicate OtherVerb(words: seq<nat>, i: int, v: nat)
  {
    0 <= i < |words| && !(0x71C <= words[i] / 0x100 % 0x1000 <= 0x71F) && v == words[i] % 0x1000_0000
  }

  /** A verb is kept as an extra one, without the codec address, exactly when it
      sets no configuration byte. */
  lemma {:induction false} ExtrasAre(words: seq<nat>, v: nat)
    ensures v in Extras(words) <==> exists i :: OtherVerb(words, i, v)
  {
    if words != [] {
      var front := words[..|words| - 1];
      ExtrasAre(front, v);
      assert forall i :: OtherVerb(front, i, v) ==> OtherVerb(words, i, v);
      assert forall i :: i < |front| && OtherVerb(words, i, v) ==> OtherVerb(front, i, v);
      assert OtherVerb(words, |front|, v) <==> !IsPinVerb(words[|front|]) && v == words[|front|] % 0x1000_0000;
    }
  }

  /** Words are stored big end first. */
  lemma BigEndian(data: seq<nat>, i: nat)
    requires |data| % 4 == 0 && 4 * i + 4 <= |data|
    ensures i < |WordsOf(data)|
    ensures WordsOf(data)[i] ==
            data[4 * i] * 16777216 + data[4 * i + 1] * 65536 + data[4 * i + 2] * 256 + data[4 * i + 3]
  {
  }

  lemma WordNumbers(w: nat, cad: nat, nid: nat, verb: nat, b: nat)
    requires cad < 16 && nid < 256 && verb < 4096 && b < 256
    requires w == cad * 268435456 + nid * 1048576 + verb * 256 + b
    ensures NidOf(w) == nid && VerbOf(w) == verb && ParamOf(w) == b
  {
    assert cad % 16 == cad && nid % 0x100 == nid && verb % 0x1000 == verb;
    assert w == MakeWord(cad, nid, verb, b);
    WordFields(cad, nid, verb, b);
  }

  /** Four words that set the bytes of one node. */
  lemma OnePin(words: seq<nat>, w0: nat, w1: nat, w2: nat, w3: nat, nid: nat, c: nat)
    requires |words| == 4 && words[0] == w0 && words[1] == w1 && words[2] == w2 && words[3] == w3
    requires NidOf(w0) == NidOf(w1) == NidOf(w2) == NidOf(w3) == nid < 256
    requires VerbOf(w0) == FIRST_BYTE && VerbOf(w1) == FIRST_BYTE + 1 && VerbOf(w2) == FIRST_BYTE + 2
    requires VerbOf(w3) == FIRST_BYTE + 3
    requires c == ParamOf(w3) * 16777216 + ParamOf(w2) * 65536 + ParamOf(w1) * 256 + ParamOf(w0)
    ensures PinsIn(words) == [Pin(nid, c)] && Extras(words) == []
  {
    assert words == [w0, w1, w2, w3];
    forall n: nat ensures ConfigsOf(words)(n) == if n == nid then Present(c) else Absent {
      FourAny(w0, w1, w2, w3, nid, n, 0);
      FourAny(w0, w1, w2, w3, nid, n, 1);
      FourAny(w0, w1, w2, w3, nid, n, 2);
      FourAny(w0, w1, w2, w3, nid, n, 3);
    }
    OnlyListed(ConfigsOf(words), 0, nid, c);
    FourAny(w0, w1, w2, w3, nid, 0, 0);
  }

  lemma {:induction false} OnlyListed(config: nat -> Param, lo: nat, nid: nat, c: nat)
    requires lo <= 256 && nid < 256 && forall n: nat :: config(n) == if n == nid then Present(c) else Absent
    ensures Listed(config, lo) == if lo <= nid then [Pin(nid, c)] else []
    decreases 256 - lo
  {
    if lo < 256 {
      OnlyListed(config, lo + 1, nid, c);
    }
  }

  /** Byte by byte: word k of node nid at codec address cad, setting byte k to b. */
  predicate HoldsWord(data: seq<nat>, k: nat, cad: nat, nid: nat, b: nat)
  {
    && 4 * k + 4 <= |data|
    && data[4 * k] == cad * 16 + nid / 16 && data[4 * k + 1] == nid % 16 * 16 + 7
    && data[4 * k + 2] == 0x1C + k && data[4 * k + 3] == b
  }

  lemma HeldWord(data: seq<nat>, k: nat, cad: nat, nid: nat, b: nat)
    requires |data| % 4 == 0 && k < 4 && HoldsWord(data, k, cad, nid, b)
    ensures k < |WordsOf(data)| && WordsOf(data)[k] == cad * 268435456 + nid * 1048576 + (0x71C + k) * 256 + b
  {
    BigEndian(data, k);
    assert nid == nid / 16 * 16 + nid % 16;
  }

  /** The four words of one pin, in numbers: they are read as that pin and
      nothing else. */
  lemma FourWordsRead(words: seq<nat>, cad: nat, nid: nat, b0: nat, b1: nat, b2: nat, b3: nat, c: nat)
    requires cad < 16 && nid < 256 && b0 < 256 && b1 < 256 && b2 < 256 && b3 < 256
    requires |words| == 4
    requires words[0] == cad * 268435456 + nid * 1048576 + 0x71C * 256 + b0
    requires words[1] == cad * 268435456 + nid * 1048576 + 0x71D * 256 + b1
    requires words[2] == cad * 268435456 + nid * 1048576 + 0x71E * 256 + b2
    requires words[3] == cad * 268435456 + nid * 1048576 + 0x71F * 256 + b3
    requires c == b3 * 16777216 + b2 * 65536 + b1 * 256 + b0
    ensures PinsIn(words) == [Pin(nid, c)] && Extras(words) == []
  {
    FourNumbers(words[0], words[1], words[2], words[3], cad, nid, b0, b1, b2, b3);
    OnePin(words, words[0], words[1], words[2], words[3], nid, c);
  }

  lemma FourNumbers(w0: nat, w1: nat, w2: nat, w3: nat, cad: nat, nid: nat, b0: nat, b1: nat, b2: nat, b3: nat)
    requires cad < 16 && nid < 256 && b0 < 256 && b1 < 256 && b2 < 256 && b3 < 256
    requires w0 == cad * 268435456 + nid * 1048576 + 0x71C * 256 + b0
    requires w1 == cad * 268435456 + nid * 1048576 + 0x71D * 256 + b1
    requires w2 == cad * 268435456 + nid * 1048576 + 0x71E * 256 + b2
    requires w3 == cad * 268435456 + nid * 1048576 + 0x71F * 256 + b3
    ensures NidOf(w0) == NidOf(w1) == NidOf(w2) == NidOf(w3) == nid
    ensures VerbOf(w0) == FIRST_BYTE && VerbOf(w1) == FIRST_BYTE + 1
    ensures VerbOf(w2) == FIRST_BYTE + 2 && VerbOf(w3) == FIRST_BYTE + 3
    ensures ParamOf(w0) == b0 && ParamOf(w1) == b1 && ParamOf(w2) == b2 && ParamOf(w3) == b3
  {
    WordNumbers(w0, cad, nid, 0x71C, b0);
    WordNumbers(w1, cad, nid, 0x71D, b1);
    WordNumbers(w2, cad, nid, 0x71E, b2);
    WordNumbers(w3, cad, nid, 0x71F, b3);
  }

  /** The sixteen bytes of one pin: they are read as that pin and nothing else. */
  lemma BytesRead(data: seq<nat>, cad: nat, nid: nat, b0: nat, b1: nat, b2: nat, b3: nat, c: nat)
    requires cad < 16 && nid < 256 && b0 < 256 && b1 < 256 && b2 < 256 && b3 < 256 && |data| == 16
    requires HoldsWord(data, 0, cad, nid, b0) && HoldsWord(data, 1, cad, nid, b1)
    requires HoldsWord(data, 2, cad, nid, b2) && HoldsWord(data, 3, cad, nid, b3)
    requires c == b3 * 16777216 + b2 * 65536 + b1 * 256 + b0
    ensures PinsIn(WordsOf(data)) == [Pin(nid, c)] && Extras(WordsOf(data)) == []
  {
    HeldWord(data, 0, cad, nid, b0);
    HeldWord(data, 1, cad, nid, b1);
    HeldWord(data, 2, cad, nid, b2);
    HeldWord(data, 3, cad, nid, b3);
    FourWordsRead(WordsOf(data), cad, nid, b0, b1, b2, b3, c);
  }

  /** One pin as it stands in a property list: node 0x14, a fixed speaker. */
  lemma SpeakerRead(data: seq<nat>)
    requires data == [0x01, 0x47, 0x1C, 0x10, 0x01, 0x47, 0x1D, 0x01, 0x01, 0x47, 0x1E, 0x17, 0x01, 0x47, 0x1F, 0x90]
    ensures |data| % 4 == 0 && PinsIn(WordsOf(data)) == [Pin(0x14, 0x9017_0110)] && Extras(WordsOf(data)) == []
  {
    BytesRead(data, 0, 0x14, 0x10, 0x01, 0x17, 0x90, 0x9017_0110);
  }

  /** What the editor's set command does to a configuration, by the places of the
      fields in the 32-bit word. */
  lemma FieldNumbers(field: Field, value: int, pc: nat)
    requires pc < 0x1_0000_0000
    ensures var q := SetField(field, value)(pc);
            && q < 0x1_0000_0000
            && q % 16 == (if field == Sequence then value else pc) % 16
            && q / 0x10 % 16 == (if field == Assoc then value else pc / 0x10) % 16
            && q / 0x100 % 16 == (if field == Misc then value else pc / 0x100) % 16
            && q / 0x1000 % 16 == (if field == Color then value else pc / 0x1000) % 16
            && q / 0x1_0000 % 16 == (if field == ConnType then value else pc / 0x1_0000) % 16
            && q / 0x10_0000 % 16 == (if field == Device then value else pc / 0x10_0000) % 16
            && q / 0x100_0000 % 64 == (if field == Location then value else pc / 0x100_0000) % 64
            && q / 0x4000_0000 % 4 == (if field == Connectivity then value else pc / 0x4000_0000) % 4
  {
    SetFieldSets(field, value, pc, Sequence);
    SetFieldSets(field, value, pc, Assoc);
    SetFieldSets(field, value, pc, Misc);
    SetFieldSets(field, value, pc, Color);
    SetFieldSets(field, value, pc, ConnType);
    SetFieldSets(field, value, pc, Device);
    SetFieldSets(field, value, pc, Location);
    SetFieldSets(field, value, pc, Connectivity);
  }
}
