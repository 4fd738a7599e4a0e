/** widgetConnectionParse: reading a widget's connection list (HD Audio
    specification, sections 7.3.3.3 and 7.3.4.11). */
module ConnectionList {
  import opened HdaGraph

  /** An entry of the list; with `range` set it stands for every id after the
      entry before it, up to its own. */
  datatype Entry = Entry(range: bool, id: nat)

  // ----- Words and entries -----

  /** Entries are bytes, or half words in the long form. */
  function Base(long: bool): nat { if long then 0x1_0000 else 0x100 }

  function PerWord(long: bool): nat { if long then 2 else 4 }

  /** How many entries that many words hold. */
  function Slots(words: nat, long: bool): nat { if long then 2 * words else 4 * words }

  predicate EntryOk(e: Entry, long: bool)
  {
    e.id < Base(long) / 2
  }

  function Digit(word: nat, long: bool, j: nat): nat
    requires j < PerWord(long)
  {
    if long then (if j == 0 then word % 0x1_0000 else word / 0x1_0000 % 0x1_0000)
    else if j == 0 then word % 0x100
    else if j == 1 then word / 0x100 % 0x100
    else if j == 2 then word / 0x1_0000 % 0x100
    else word / 0x100_0000 % 0x100
  }

  function EntryOf(digit: nat, long: bool): Entry
  {
    if long then Entry(digit / 0x8000 % 2 == 1, digit % 0x8000) else Entry(digit / 0x80 % 2 == 1, digit % 0x80)
  }

  function DigitOf(e: Entry, long: bool): nat
  {
    e.id + if e.range then Base(long) / 2 else 0
  }

  const ZERO: Entry := Entry(false, 0)

  /** The entries of n words. */
  function Entries(words: seq<nat>, long: bool, n: nat): (es: seq<Entry>)
    requires n <= |words|
    ensures |es| == Slots(n, long)
  {
    if n == 0 then []
    else
      Entries(words, long, n - 1)
      + seq(PerWord(long), j requires 0 <= j < PerWord(long) => EntryOf(Digit(words[n - 1], long, j), long))
  }

  /** Entry k of the list, zero beyond its end. */
  function At(es: seq<Entry>, k: nat): Entry
  {
    if k < |es| then es[k] else ZERO
  }

  function DigitAt(es: seq<Entry>, long: bool, k: nat): nat
  {
    DigitOf(At(es, k), long)
  }

  /** Word k of the encoded list. */
  function Word(es: seq<Entry>, long: bool, k: nat): nat
  {
    var p := Slots(k, long);
    if long then DigitAt(es, long, p) + DigitAt(es, long, p + 1) * 0x1_0000
    else DigitAt(es, long, p) + DigitAt(es, long, p + 1) * 0x100
         + DigitAt(es, long, p + 2) * 0x1_0000 + DigitAt(es, long, p + 3) * 0x100_0000
  }

  /** The words a codec answers for the list. */
  function Encode(es: seq<Entry>, long: bool, words: nat): seq<nat>
  {
    seq(words, k requires 0 <= k < words => Word(es, long, k))
  }

  lemma ShortDigits(d0: nat, d1: nat, d2: nat, d3: nat, word: nat)
    requires d0 < 0x100 && d1 < 0x100 && d2 < 0x100 && d3 < 0x100
    requires word == d0 + d1 * 0x100 + d2 * 0x1_0000 + d3 * 0x100_0000
    ensures word % 0x100 == d0 && word / 0x100 % 0x100 == d1
    ensures word / 0x1_0000 % 0x100 == d2 && word / 0x100_0000 % 0x100 == d3
  {
    assert word / 0x100 == d1 + d2 * 0x100 + d3 * 0x1_0000;
    assert word / 0x1_0000 == word / 0x100 / 0x100 == d2 + d3 * 0x100;
    assert word / 0x100_0000 == word / 0x1_0000 / 0x100 == d3;
  }

  lemma LongDigits(d0: nat, d1: nat, word: nat)
    requires d0 < 0x1_0000 && d1 < 0x1_0000 && word == d0 + d1 * 0x1_0000
    ensures word % 0x1_0000 == d0 && word / 0x1_0000 % 0x1_0000 == d1
  {
    assert word / 0x1_0000 == d1;
  }

  lemma DigitEntry(e: Entry, long: bool)
    requires EntryOk(e, long)
    ensures DigitOf(e, long) < Base(long) && EntryOf(DigitOf(e, long), long) == e
  {
  }

  lemma AtDigit(es: seq<Entry>, long: bool, k: nat)
    requires forall e :: e in es ==> EntryOk(e, long)
    ensures DigitAt(es, long, k) < Base(long) && EntryOf(DigitAt(es, long, k), long) == At(es, k)
  {
    DigitEntry(At(es, k), long);
  }

  lemma WordDigits(es: seq<Entry>, long: bool, k: nat, j: nat)
    requires (forall e :: e in es ==> EntryOk(e, long)) && j < PerWord(long)
    ensures EntryOf(Digit(Word(es, long, k), long, j), long) == At(es, Slots(k, long) + j)
  {
    var p := Slots(k, long);
    AtDigit(es, long, p);
    AtDigit(es, long, p + 1);
    if long {
      LongDigits(DigitAt(es, long, p), DigitAt(es, long, p + 1), Word(es, long, k));
    } else {
      AtDigit(es, long, p + 2);
      AtDigit(es, long, p + 3);
      ShortDigits(DigitAt(es, long, p), DigitAt(es, long, p + 1), DigitAt(es, long, p + 2),
                  DigitAt(es, long, p + 3), Word(es, long, k));
    }
  }

  /** Entry k is entry j of word w. */
  lemma EntryPlace(long: bool, n: nat, k: nat) returns (w: nat, j: nat)
    requires k < Slots(n, long)
    ensures w < n && j < PerWord(long) && k == Slots(w, long) + j
  {
    w, j := if long then k / 2 else k / 4, if long then k % 2 else k % 4;
  }

  lemma {:induction false} EntriesAt(words: seq<nat>, long: bool, n: nat, k: nat, j: nat)
    requires k < n <= |words| && j < PerWord(long)
    ensures Slots(k, long) + j < Slots(n, long)
    ensures Entries(words, long, n)[Slots(k, long) + j] == EntryOf(Digit(words[k], long, j), long)
  {
    if k < n - 1 {
      EntriesAt(words, long, n - 1, k, j);
    }
  }

  lemma EncodedEntry(es: seq<Entry>, long: bool, words: nat, w: nat, j: nat)
    requires (forall e :: e in es ==> EntryOk(e, long)) && w < words && j < PerWord(long)
    ensures Slots(w, long) + j < Slots(words, long)
    ensures Entries(Encode(es, long, words), long, words)[Slots(w, long) + j] == At(es, Slots(w, long) + j)
  {
    EntriesAt(Encode(es, long, words), long, words, w, j);
    WordDigits(es, long, w, j);
  }

  lemma EncodedAt(es: seq<Entry>, long: bool, words: nat, all: seq<Entry>, k: nat)
    requires forall e :: e in es ==> EntryOk(e, long)
    requires k < Slots(words, long) && all == Entries(Encode(es, long, words), long, words)
    ensures all[k] == At(es, k)
  {
    var w, j := EntryPlace(long, words, k);
    EncodedEntry(es, long, words, w, j);
  }

  /** Reading the words back gives the list, padded with zero entries. */
  lemma EncodedEntries(es: seq<Entry>, long: bool, words: nat, all: seq<Entry>)
    requires (forall e :: e in es ==> EntryOk(e, long)) && all == Entries(Encode(es, long, words), long, words)
    ensures forall k :: 0 <= k < |all| ==> all[k] == At(es, k)
  {
    forall k | 0 <= k < |all| ensures all[k] == At(es, k) {
      EncodedAt(es, long, words, all, k);
    }
  }

  // ----- What a list stands for -----

  /** The node ids from .. to. */
  function Span(from: nat, to: nat): (s: seq<int>)
    requires from <= to
    ensures |s| == to - from + 1
  {
    seq(to - from + 1, k => from + k)
  }

  /** The ids of an entry after an entry with id prev (0 for none): a range that
      cannot be one stands for its end alone. */
  function Ids(prev: nat, e: Entry): (s: seq<int>)
    ensures |s| >= 1
  {
    if e.range && prev != 0 && prev < e.id then Span(prev + 1, e.id) else [e.id]
  }

  function PrevId(es: seq<Entry>, n: nat): nat
    requires n <= |es|
  {
    if n == 0 then 0 else es[n - 1].id
  }

  /** The connections the first n entries of a list stand for. */
  function Expand(es: seq<Entry>, n: nat): (s: seq<int>)
    requires n <= |es|
    ensures |s| >= n
  {
    if n == 0 then [] else Expand(es, n - 1) + Ids(PrevId(es, n - 1), es[n - 1])
  }

  // ----- widgetConnectionParse -----

  /** The list so far, the id of the last entry, and whether reading is over. */
  datatype State = State(conns: seq<int>, prev: nat, done: bool)

  const START: State := State([], 0, false)

  /** One entry: a zero entry ends a list that has as many connections as the
      codec announced, a full table ends it too. */
  function Step(s: State, e: Entry, ents: nat): State
  {
    if s.done then s
    else if e.id == 0 && |s.conns| >= ents then s.(done := true)
    else
      var all := s.conns + Ids(s.prev, e);
      if |all| > MAX_CONNS then State(all[..MAX_CONNS], s.prev, true) else State(all, e.id, false)
  }

  function ReadList(es: seq<Entry>, ents: nat, n: nat): State
    requires n <= |es|
  {
    if n == 0 then START else Step(ReadList(es, ents, n - 1), es[n - 1], ents)
  }

  /** Whatever the codec answers, the table is never overrun. */
  lemma {:induction false} NeverOverrun(es: seq<Entry>, ents: nat, n: nat)
    requires n <= |es|
    ensures |ReadList(es, ents, n).conns| <= MAX_CONNS
  {
    if n > 0 {
      NeverOverrun(es, ents, n - 1);
    }
  }

  predicate NonZero(es: seq<Entry>)
  {
    forall k :: 0 <= k < |es| ==> es[k].id != 0
  }

  /** The entries of a list are read as the connections they stand for, as many
      as the table holds. */
  lemma {:induction false} ReadsEntries(es: seq<Entry>, all: seq<Entry>, n: nat)
    requires NonZero(es) && es <= all && n <= |es|
    ensures var s := ReadList(all, |es|, n);
            if s.done then |Expand(es, n)| > MAX_CONNS && s.conns == Expand(es, n)[..MAX_CONNS]
            else |Expand(es, n)| <= MAX_CONNS && s.conns == Expand(es, n) && s.prev == PrevId(es, n)
  {
    if n > 0 {
      ReadsEntries(es, all, n - 1);
      var s := ReadList(all, |es|, n - 1);
      var more := Ids(PrevId(es, n - 1), es[n - 1]);
      assert all[n - 1] == es[n - 1];
      if s.done {
        assert Expand(es, n)[..MAX_CONNS] == Expand(es, n - 1)[..MAX_CONNS];
      }
    }
  }

  /** Zero entries after the list add nothing. */
  lemma {:induction false} ReadsPadding(es: seq<Entry>, all: seq<Entry>, n: nat)
    requires NonZero(es) && es <= all && |es| <= n <= |all|
    requires forall k :: |es| <= k < |all| ==> all[k] == ZERO
    ensures ReadList(all, |es|, n).conns == ReadList(all, |es|, |es|).conns
    ensures n > |es| ==> ReadList(all, |es|, n).done
  {
    if n > |es| {
      ReadsPadding(es, all, n - 1);
      ReadsEntries(es, all, |es|);
    }
  }

  function Shorter(s: seq<int>): seq<int>
  {
    if |s| > MAX_CONNS then s[..MAX_CONNS] else s
  }

  /** How many words hold that many entries. */
  function WordsFor(ents: nat, long: bool): nat
  {
    if long then (ents + 1) / 2 else (ents + 3) / 4
  }

  lemma WordsEnough(ents: nat, long: bool)
    ensures ents <= Slots(WordsFor(ents, long), long)
    ensures ents > 0 ==> Slots(WordsFor(ents, long) - 1, long) < ents
  {
  }

  /** Exactly the words below WordsFor start before the list ends. */
  lemma WordAhead(ents: nat, long: bool, k: nat)
    ensures k < WordsFor(ents, long) <==> Slots(k, long) < ents
  {
  }

  /** Decoding inverts encoding: a list of nonzero entries, short or long, with
      ranges, is read as exactly the connections it stands for, in order. */
  lemma DecodeInvertsEncode(es: seq<Entry>, long: bool)
    requires NonZero(es) && forall e :: e in es ==> EntryOk(e, long)
    ensures var words := WordsFor(|es|, long);
            ReadList(Entries(Encode(es, long, words), long, words), |es|, Slots(words, long)).conns ==
            Shorter(Expand(es, |es|))
  {
    var words := WordsFor(|es|, long);
    WordsEnough(|es|, long);
    var all := Entries(Encode(es, long, words), long, words);
    EncodedEntries(es, long, words, all);
    assert all[..|es|] == es;
    ReadsPadding(es, all, |all|);
    ReadsEntries(es, all, |es|);
  }

  /** The Intel HDMI patch never touches a word of such a list. */
  lemma WordsNotZero(es: seq<Entry>, long: bool, k: nat)
    requires NonZero(es) && k < WordsFor(|es|, long)
    ensures Word(es, long, k) != 0
  {
    WordAhead(|es|, long, k);
    var p := Slots(k, long);
    assert es[p].id != 0 && DigitAt(es, long, p) > 0;
  }

  function Patched(word: nat, patch: nat): nat
  {
    if word == 0 && patch != 0 then patch else word
  }

  /** The word that stands in for an empty answer of an Intel digital pin. */
  function IntelPatch(ents: nat, intelDigitalPin: bool): nat
  {
    if !intelDigitalPin then 0
    else if ents == 2 then 0x0302
    else if ents == 3 then 0x04_0302
    else if ents == 4 then 0x0907_0503
    else 0
  }

  /** What the driver makes of the answers to the length and the entry verbs. */
  function ParsedConnections(length: nat, words: seq<nat>, intelDigitalPin: bool): seq<int>
    requires |words| >= WordsFor(length % 0x80, length / 0x80 % 2 == 1)
  {
    var ents, long := length % 0x80, length / 0x80 % 2 == 1;
    var read := AllPatched(words, IntelPatch(ents, intelDigitalPin), WordsFor(ents, long));
    ReadList(Entries(read, long, |read|), ents, Slots(|read|, long)).conns
  }

  lemma LengthFields(ents: nat, long: bool)
    requires ents < 0x80
    ensures var length := ents + (if long then 0x80 else 0);
            length % 0x80 == ents && (length / 0x80 % 2 == 1 <==> long)
  {
  }

  lemma NothingPatched(es: seq<Entry>, long: bool, patch: nat)
    requires NonZero(es)
    ensures var words := Encode(es, long, WordsFor(|es|, long));
            AllPatched(words, patch, WordsFor(|es|, long)) == words
  {
    var words := Encode(es, long, WordsFor(|es|, long));
    forall k | 0 <= k < |words| ensures words[k] != 0 {
      WordsNotZero(es, long, k);
    }
  }

  /** What is made of answers whose length field has been read. */
  lemma ParsedBy(length: nat, ents: nat, long: bool, words: seq<nat>, intelDigitalPin: bool)
    requires length % 0x80 == ents && (length / 0x80 % 2 == 1) == long && |words| == WordsFor(ents, long)
    requires AllPatched(words, IntelPatch(ents, intelDigitalPin), |words|) == words
    ensures ParsedConnections(length, words, intelDigitalPin) ==
            ReadList(Entries(words, long, |words|), ents, Slots(|words|, long)).conns
  {
  }

  lemma ParsesWords(es: seq<Entry>, long: bool, length: nat, words: seq<nat>, intelDigitalPin: bool)
    requires NonZero(es) && forall e :: e in es ==> EntryOk(e, long)
    requires length % 0x80 == |es| && (length / 0x80 % 2 == 1) == long
    requires words == Encode(es, long, WordsFor(|es|, long))
    ensures ParsedConnections(length, words, intelDigitalPin) == Shorter(Expand(es, |es|))
  {
    NothingPatched(es, long, IntelPatch(|es|, intelDigitalPin));
    DecodeInvertsEncode(es, long);
    ParsedBy(length, |es|, long, words, intelDigitalPin);
  }

  /** End to end: the driver reads a well-formed list as what it stands for. */
  lemma ParsesEncoded(es: seq<Entry>, long: bool, length: nat, words: seq<nat>, intelDigitalPin: bool)
    requires NonZero(es) && |es| < 0x80 && forall e :: e in es ==> EntryOk(e, long)
    requires length == |es| + (if long then 0x80 else 0) && words == Encode(es, long, WordsFor(|es|, long))
    ensures length % 0x80 == |es| && (length / 0x80 % 2 == 1 <==> long) && |words| == WordsFor(|es|, long)
    ensures ParsedConnections(length, words, intelDigitalPin) == Shorter(Expand(es, |es|))
  {
    LengthFields(|es|, long);
    ParsesWords(es, long, length, words, intelDigitalPin);
  }

  /** widgetConnectionParse; `length` is the answer to the list length verb,
      `words` the answers to the entry verbs in order. */
  method WidgetConnectionParse(fg: FunctionGroup, n: nat, length: nat, words: seq<nat>, intelDigitalPin: bool)
    requires n < fg.widgets.Length
    requires |words| >= WordsFor(length % 0x80, length / 0x80 % 2 == 1)
    modifies fg.widgets
    ensures forall m :: 0 <= m < fg.widgets.Length && m != n ==> fg.widgets[m] == old(fg.widgets[m])
    ensures fg.widgets[n] == old(fg.widgets[n]).(conns := ParsedConnections(length, words, intelDigitalPin),
                                                 connsenable := fg.widgets[n].connsenable,
                                                 connsenabled := |fg.widgets[n].conns|)
    ensures WidgetOk(fg.widgets[n]) && forall i :: 0 <= i < |fg.widgets[n].conns| ==> fg.widgets[n].connsenable[i]
  {
    var ents, long := length % 0x80, length / 0x80 % 2 == 1;
    var s := ReadWords(words, long, ents, IntelPatch(ents, intelDigitalPin));
    var connsenable := seq(|s.conns|, _ => true);
    AllEnabled(connsenable);
    fg.widgets[n] := fg.widgets[n].(conns := s.conns, connsenable := connsenable, connsenabled := |s.conns|);
  }

  function AllPatched(words: seq<nat>, patch: nat, count: nat): seq<nat>
    requires count <= |words|
  {
    seq(count, k requires 0 <= k < count => Patched(words[k], patch))
  }

  /** The loop over the words. */
  method ReadWords(words: seq<nat>, long: bool, ents: nat, patch: nat) returns (s: State)
    requires |words| >= WordsFor(ents, long)
    ensures var read := AllPatched(words, patch, WordsFor(ents, long));
            s == ReadList(Entries(read, long, |read|), ents, Slots(|read|, long)) && |s.conns| <= MAX_CONNS
  {
    ghost var count := WordsFor(ents, long);
    ghost var read := AllPatched(words, patch, count);
    ghost var es := Entries(read, long, count);
    s := START;
    var k := 0;
    WordAhead(ents, long, 0);
    while Slots(k, long) < ents && !s.done
      invariant 0 <= k <= count && Slots(k, long) <= |es|
      invariant s == ReadList(es, ents, Slots(k, long))
      decreases count - k
    {
      WordAhead(ents, long, k);
      WordEntries(read, long, count, k);
      NextWord(long, count, k);
      var word := if words[k] == 0 && patch != 0 then patch else words[k];
      assert read[k] == word;
      s := ReadWord(s, word, long, ents, es, Slots(k, long));
      k := k + 1;
    }
    WordAhead(ents, long, k);
    assert !s.done ==> k == count;
    DoneStays(es, ents, Slots(k, long), |es|);
    NeverOverrun(es, ents, |es|);
  }

  /** Entry j of the word whose entries start at `base` of the list es is read
      off word. */
  predicate EntryIn(es: seq<Entry>, long: bool, base: nat, word: nat, j: nat)
    requires j < PerWord(long)
  {
    base + j < |es| && es[base + j] == EntryOf(Digit(word, long, j), long)
  }

  lemma WordEntries(words: seq<nat>, long: bool, n: nat, k: nat)
    requires k < n <= |words|
    ensures forall j: nat :: j < PerWord(long) ==> EntryIn(Entries(words, long, n), long, Slots(k, long), words[k], j)
  {
    forall j: nat | j < PerWord(long) ensures EntryIn(Entries(words, long, n), long, Slots(k, long), words[k], j) {
      EntriesAt(words, long, n, k, j);
    }
  }

  lemma NextWord(long: bool, count: nat, k: nat)
    requires k < count
    ensures Slots(k, long) + PerWord(long) == Slots(k + 1, long) <= Slots(count, long)
  {
  }

  lemma {:induction false} DoneStays(es: seq<Entry>, ents: nat, n: nat, m: nat)
    requires n <= m <= |es| && (ReadList(es, ents, n).done || n == m)
    ensures ReadList(es, ents, m) == ReadList(es, ents, n)
  {
    if n < m {
      DoneStays(es, ents, n, m - 1);
    }
  }

  lemma {:induction false} AllEnabled(bs: seq<bool>)
    requires forall i :: 0 <= i < |bs| ==> bs[i]
    ensures CountTrue(bs) == |bs|
  {
    if bs != [] {
      AllEnabled(bs[1..]);
    }
  }

  lemma ReadNext(es: seq<Entry>, ents: nat, n: nat, next: nat, e: Entry)
    requires n < |es| && next == n + 1 && es[n] == e && !ReadList(es, ents, n).done
    ensures ReadList(es, ents, next) == Step(ReadList(es, ents, n), e, ents)
    ensures |ReadList(es, ents, n).conns| <= MAX_CONNS
  {
    NeverOverrun(es, ents, n);
  }

  method EntryOfWord(word: nat, long: bool, j: nat, ghost es: seq<Entry>, ghost base: nat) returns (e: Entry)
    requires j < PerWord(long) && EntryIn(es, long, base, word, j)
    ensures base + j < |es| && e == es[base + j]
  {
    e := EntryOf(Digit(word, long, j), long);
  }

  /** The entries of one word. */
  method ReadWord(s0: State, word: nat, long: bool, ents: nat, ghost es: seq<Entry>, ghost base: nat)
    returns (s: State)
    requires base + PerWord(long) <= |es| && s0 == ReadList(es, ents, base) && !s0.done
    requires forall j: nat :: j < PerWord(long) ==> EntryIn(es, long, base, word, j)
    ensures s == ReadList(es, ents, base + PerWord(long))
  {
    s := s0;
    var j := 0;
    while j < PerWord(long) && !s.done
      invariant 0 <= j <= PerWord(long)
      invariant s == ReadList(es, ents, base + j)
    {
      var e := EntryOfWord(word, long, j, es, base);
      ReadNext(es, ents, base + j, base + j + 1, e);
      s := ReadEntry(s, e, ents);
      j := j + 1;
    }
    DoneStays(es, ents, base + j, base + PerWord(long));
  }

  /** One entry, its ids added one at a time while the table has room. */
  method ReadEntry(s0: State, e: Entry, ents: nat) returns (s: State)
    requires !s0.done && |s0.conns| <= MAX_CONNS
    ensures s == Step(s0, e, ents)
  {
    if e.id == 0 && |s0.conns| >= ents {
      return s0.(done := true);
    }
    var first := if !e.range then e.id else if s0.prev == 0 || s0.prev >= e.id then e.id else s0.prev + 1;
    ghost var ids := Ids(s0.prev, e);
    var conns, id := s0.conns, first;
    while id <= e.id
      invariant first <= id <= e.id + 1 && id - first <= |ids|
      invariant conns == s0.conns + ids[..id - first] && |conns| <= MAX_CONNS
    {
      if |conns| > MAX_CONNS - 1 {
        assert conns == (s0.conns + ids)[..MAX_CONNS];
        return State(conns, s0.prev, true);
      }
      assert ids[..id - first] + [ids[id - first]] == ids[..id + 1 - first];
      conns := conns + [id];
      id := id + 1;
    }
    assert ids[..id - first] == ids;
    s := State(conns, e.id, false);
  }

  // ----- Lists in numbers -----

  /** A short list of three node ids, in one word, the first in the lowest byte. */
  lemma ShortList(a: nat, b: nat, c: nat)
    requires 0 < a < 0x80 && 0 < b < 0x80 && 0 < c < 0x80
    ensures ParsedConnections(3, [c * 0x1_0000 + b * 0x100 + a], false) == [a, b, c]
  {
    var es := [Entry(false, a), Entry(false, b), Entry(false, c)];
    assert Encode(es, false, 1) == [c * 0x1_0000 + b * 0x100 + a];
    ParsesEncoded(es, false, 3, Encode(es, false, 1), false);
    assert Expand(es, 1) == [a] && Expand(es, 2) == [a, b] && Expand(es, 3) == [a, b, c];
  }

  /** A short list with a range: bit 7 of an entry asks for the ids from the one
      after the entry before it. */
  lemma ShortRange(a: nat, b: nat)
    requires 0 < a < b < 0x80 && b - a < 32
    ensures ParsedConnections(2, [(0x80 + b) * 0x100 + a], false) == [a] + seq(b - a, k => a + 1 + k)
  {
    var es := [Entry(false, a), Entry(true, b)];
    assert Encode(es, false, 1) == [(0x80 + b) * 0x100 + a];
    ParsesEncoded(es, false, 2, Encode(es, false, 1), false);
    assert Expand(es, 1) == [a];
    assert Expand(es, 2) == Expand(es, 1) + Ids(a, es[1]);
    assert Span(a + 1, b) == seq(b - a, k => a + 1 + k);
  }

  /** A long list (bit 7 of the length): two ids of fifteen bits a word. */
  lemma LongList(a: nat, b: nat, c: nat)
    requires 0 < a < 0x8000 && 0 < b < 0x8000 && 0 < c < 0x8000
    ensures ParsedConnections(0x83, [b * 0x1_0000 + a, c], false) == [a, b, c]
  {
    var es := [Entry(false, a), Entry(false, b), Entry(false, c)];
    assert Encode(es, true, 2) == [b * 0x1_0000 + a, c];
    ParsesEncoded(es, true, 0x83, Encode(es, true, 2), false);
    assert Expand(es, 1) == [a] && Expand(es, 2) == [a, b] && Expand(es, 3) == [a, b, c];
  }
}
