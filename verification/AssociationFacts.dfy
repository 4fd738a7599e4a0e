/** What the table of associations says about the pins. */
module AssociationFacts {
  import opened HdaGraph
  import opened AssociationParser
  import opened AssociationTurns
  import opened TreeBuilder
  import Fields = PinFields

  /** Pin n of association j lies among the nodes lo .. i - 1. */
  predicate Among(ws: seq<Widget>, j: int, lo: int, i: int, n: int)
  {
    && lo <= n < i && 0 <= n < |ws| && ws[n].enable && ws[n].kind == PinComplex && Association(ws[n].config) == j
  }

  lemma {:induction false} PinAtIff(ws: seq<Widget>, j: int, s: int, lo: int, i: int)
    requires !Live(ws, 0)
    ensures PinAt(ws, j, s, lo, i) != 0 <==> exists n :: Among(ws, j, lo, i, n) && Sequence(ws[n].config) == s
    ensures PinAt(ws, j, s, lo, i) != 0 ==>
              Among(ws, j, lo, i, PinAt(ws, j, s, lo, i)) && Sequence(ws[PinAt(ws, j, s, lo, i)].config) == s
    ensures forall n :: Among(ws, j, lo, i, n) && Sequence(ws[n].config) == s ==> n <= PinAt(ws, j, s, lo, i)
    decreases i - lo
  {
    if lo < i {
      PinAtIff(ws, j, s, lo, i - 1);
      if n :| Among(ws, j, lo, i, n) && Sequence(ws[n].config) == s {
        assert n == i - 1 || Among(ws, j, lo, i - 1, n);
      }
      if n :| Among(ws, j, lo, i - 1, n) && Sequence(ws[n].config) == s {
        assert Among(ws, j, lo, i, n);
      }
      if InAssoc(ws, j, i - 1) {
        assert Among(ws, j, lo, i, i - 1);
      }
    }
  }

  lemma {:induction false} FirstDirOf(ws: seq<Widget>, j: int, lo: int, i: int)
    ensures PinCount(ws, j, lo, i) > 0 <==> exists n :: Among(ws, j, lo, i, n)
    ensures PinCount(ws, j, lo, i) > 0 ==> exists n :: Among(ws, j, lo, i, n) && PinDir(ws[n]) == FirstDir(ws, j, lo, i)
    decreases i - lo
  {
    if lo < i {
      FirstDirOf(ws, j, lo, i - 1);
      if n :| Among(ws, j, lo, i - 1, n) && PinDir(ws[n]) == FirstDir(ws, j, lo, i - 1) {
        assert Among(ws, j, lo, i, n);
      }
      if InAssoc(ws, j, i - 1) {
        assert Among(ws, j, lo, i, i - 1);
      }
      if n :| Among(ws, j, lo, i, n) {
        assert n == i - 1 || Among(ws, j, lo, i - 1, n);
      }
    }
  }

  /** The pins have distinct sequences and one direction. */
  ghost predicate Proper(ws: seq<Widget>, j: int, lo: int, i: int)
  {
    forall n, m :: Among(ws, j, lo, i, n) && Among(ws, j, lo, i, m) && n != m ==>
      Sequence(ws[n].config) != Sequence(ws[m].config) && PinDir(ws[n]) == PinDir(ws[m])
  }

  lemma {:induction false} ConsistentIff(ws: seq<Widget>, j: int, lo: int, i: int)
    requires !Live(ws, 0)
    ensures Consistent(ws, j, lo, i) <==> Proper(ws, j, lo, i)
    decreases i - lo
  {
    if lo < i {
      var k := i - 1;
      ConsistentIff(ws, j, lo, k);
      if InAssoc(ws, j, k) {
        ProperNext(ws, j, lo, k, i);
      } else {
        assert forall n :: Among(ws, j, lo, i, n) <==> Among(ws, j, lo, k, n);
      }
    }
  }

  /** One more pin. */
  lemma ProperNext(ws: seq<Widget>, j: int, lo: int, i: int, next: int)
    requires !Live(ws, 0) && lo <= i && next == i + 1 && InAssoc(ws, j, i)
    ensures Proper(ws, j, lo, next) <==>
            && Proper(ws, j, lo, i) && PinAt(ws, j, Sequence(ws[i].config), lo, i) == 0
            && PinDir(ws[i]) == FirstDir(ws, j, lo, next)
  {
    assert forall n :: Among(ws, j, lo, next, n) <==> Among(ws, j, lo, i, n) || n == i;
    PinAtIff(ws, j, Sequence(ws[i].config), lo, i);
    FirstDirOf(ws, j, lo, i);
  }

  /** In a proper association every pin is found at its sequence. */
  lemma PinAtExact(ws: seq<Widget>, j: int, lo: int, i: int, n: int)
    requires !Live(ws, 0) && Proper(ws, j, lo, i) && Among(ws, j, lo, i, n)
    ensures PinAt(ws, j, Sequence(ws[n].config), lo, i) == n
    ensures PinDir(ws[n]) == FirstDir(ws, j, lo, i)
  {
    PinAtIff(ws, j, Sequence(ws[n].config), lo, i);
    FirstDirOf(ws, j, lo, i);
  }

  lemma {:induction false} LowestSeqIs(ws: seq<Widget>, j: int, lo: int, i: int)
    requires !Live(ws, 0)
    ensures forall n :: Among(ws, j, lo, i, n) ==> LowestSeq(ws, j, lo, i) <= Sequence(ws[n].config)
    ensures LowestSeq(ws, j, lo, i) == PINS ||
            exists n :: Among(ws, j, lo, i, n) && Sequence(ws[n].config) == LowestSeq(ws, j, lo, i)
    ensures PinCount(ws, j, lo, i) > 0 ==> LowestSeq(ws, j, lo, i) < PINS
    decreases i - lo
  {
    if lo < i {
      LowestSeqIs(ws, j, lo, i - 1);
      if n :| Among(ws, j, lo, i - 1, n) && Sequence(ws[n].config) == LowestSeq(ws, j, lo, i - 1) {
        assert Among(ws, j, lo, i, n);
      }
      if InAssoc(ws, j, i - 1) {
        assert Among(ws, j, lo, i, i - 1);
      }
      forall n | Among(ws, j, lo, i, n) ensures LowestSeq(ws, j, lo, i) <= Sequence(ws[n].config) {
        assert n == i - 1 || Among(ws, j, lo, i - 1, n);
      }
    }
  }

  lemma {:induction false} NamedSeqs(ws: seq<Widget>, j: int, lo: int, i: int)
    requires !Live(ws, 0)
    ensures var d := DefaultSeq(ws, j, lo, i);
            d == -1 || exists n :: Among(ws, j, lo, i, n) && Sequence(ws[n].config) == d && IsDefault(ws[n])
    ensures var k := JackSeq(ws, j, lo, i);
            k == -1 || exists n :: Among(ws, j, lo, i, n) && Sequence(ws[n].config) == k && !IsDefault(ws[n])
    ensures JackRedirects(ws, j, lo, i) ==> JackSeq(ws, j, lo, i) != -1
    decreases i - lo
  {
    if lo < i {
      NamedSeqs(ws, j, lo, i - 1);
      assert forall n :: Among(ws, j, lo, i - 1, n) ==> Among(ws, j, lo, i, n);
      if InAssoc(ws, j, i - 1) {
        assert Among(ws, j, lo, i, i - 1);
      }
    }
  }

  // ----- The pins that decide the other fields -----

  /** The pin of the lowest node. */
  ghost predicate FirstPin(ws: seq<Widget>, j: int, lo: int, i: int, n: int)
  {
    Among(ws, j, lo, i, n) && forall m :: Among(ws, j, lo, i, m) ==> n <= m
  }

  /** The pin of the highest node whose Misc field is even (jacks) or odd. */
  ghost predicate LastWithMisc(ws: seq<Widget>, j: int, lo: int, i: int, parity: nat, n: int)
  {
    && Among(ws, j, lo, i, n) && Misc(ws[n].config) % 2 == parity
    && forall m :: Among(ws, j, lo, i, m) && Misc(ws[m].config) % 2 == parity ==> m <= n
  }

  ghost predicate LastDigital(ws: seq<Widget>, j: int, lo: int, i: int, n: int)
  {
    && Among(ws, j, lo, i, n) && ws[n].digitalCap != 0
    && forall m :: Among(ws, j, lo, i, m) && ws[m].digitalCap != 0 ==> m <= n
  }

  ghost predicate IsLowestSequence(ws: seq<Widget>, j: int, lo: int, i: int, s: int)
  {
    && (exists n :: Among(ws, j, lo, i, n) && Sequence(ws[n].config) == s)
    && forall n :: Among(ws, j, lo, i, n) ==> s <= Sequence(ws[n].config)
  }

  /** The fields of the record of the pins among lo .. i - 1, as the pins decide
      them; for the associations 1 .. 14 redirection is decided and the default
      pin completed. */
  ghost predicate FieldsOf(ws: seq<Widget>, asc: Assoc, j: int, lo: int, i: int)
  {
    && asc.pincnt == |PinSet(ws, j, lo, i)|
    && (forall n :: FirstPin(ws, j, lo, i, n) ==>
          asc.dir == if Device(ws[n].config) in {0, 1, 2, 4, 5} then Out else In)
    && (forall n :: LastDigital(ws, j, lo, i, n) ==> asc.digital == ws[n].digitalCap)
    && ((forall n :: !LastDigital(ws, j, lo, i, n)) ==> asc.digital == 0)
    && (forall n :: LastWithMisc(ws, j, lo, i, 0, n) ==> asc.jackPin == Sequence(ws[n].config))
    && ((forall n :: !LastWithMisc(ws, j, lo, i, 0, n)) ==> asc.jackPin == -1)
    && (forall n :: LastWithMisc(ws, j, lo, i, 1, n) ==> asc.defaultPin == Sequence(ws[n].config))
    && ((forall n :: !LastWithMisc(ws, j, lo, i, 1, n)) ==>
          if j < 15 then IsLowestSequence(ws, j, lo, i, asc.defaultPin) else asc.defaultPin == -1)
    && (asc.hpredir >= 0 <==>
          && j < 15 && |PinSet(ws, j, lo, i)| >= 2
          && exists n :: LastWithMisc(ws, j, lo, i, 0, n) && (Device(ws[n].config) == 2 || asc.dir == In))
    && (asc.hpredir < 0 ==> asc.hpredir == -1)
    && (asc.hpredir >= 0 ==> IsLowestSequence(ws, j, lo, i, asc.hpredir))
  }

  ghost function PinSet(ws: seq<Widget>, j: int, lo: int, i: int): set<int>
  {
    set n | lo <= n < i && Among(ws, j, lo, i, n)
  }

  lemma {:induction false} PinSetCount(ws: seq<Widget>, j: int, lo: int, i: int)
    ensures |PinSet(ws, j, lo, i)| == PinCount(ws, j, lo, i)
    decreases i - lo
  {
    if lo < i {
      PinSetCount(ws, j, lo, i - 1);
      assert PinSet(ws, j, lo, i) == PinSet(ws, j, lo, i - 1) + if InAssoc(ws, j, i - 1) then {i - 1} else {};
    } else {
      assert PinSet(ws, j, lo, i) == {};
    }
  }

  /** One more node. */
  lemma AmongNext(ws: seq<Widget>, j: int, lo: int, i: int, next: int)
    requires lo <= i && next == i + 1
    ensures forall n :: Among(ws, j, lo, next, n) <==> Among(ws, j, lo, i, n) || (n == i && InAssoc(ws, j, i))
  {
  }

  lemma {:induction false} FirstDirIs(ws: seq<Widget>, j: int, lo: int, i: int, n: int)
    requires FirstPin(ws, j, lo, i, n)
    ensures FirstDir(ws, j, lo, i) == PinDir(ws[n])
    decreases i - lo
  {
    var k := i - 1;
    PinSetCount(ws, j, lo, k);
    AmongNext(ws, j, lo, k, i);
    if n < k {
      assert n in PinSet(ws, j, lo, k);
      FirstDirIs(ws, j, lo, k, n);
    } else {
      assert forall m :: !Among(ws, j, lo, k, m);
      assert PinSet(ws, j, lo, k) == {};
    }
  }

  lemma {:induction false} DigitalIs(ws: seq<Widget>, j: int, lo: int, i: int)
    ensures forall n :: LastDigital(ws, j, lo, i, n) ==> DigitalKind(ws, j, lo, i) == ws[n].digitalCap
    ensures DigitalKind(ws, j, lo, i) != 0 ==> exists n :: LastDigital(ws, j, lo, i, n)
    decreases i - lo
  {
    if lo < i {
      var k := i - 1;
      DigitalIs(ws, j, lo, k);
      AmongNext(ws, j, lo, k, i);
      if InAssoc(ws, j, k) && ws[k].digitalCap != 0 {
        assert LastDigital(ws, j, lo, i, k);
      } else {
        assert forall n :: LastDigital(ws, j, lo, k, n) ==> LastDigital(ws, j, lo, i, n);
        assert forall n :: LastDigital(ws, j, lo, i, n) ==> LastDigital(ws, j, lo, k, n);
      }
    }
  }

  lemma LastBefore(ws: seq<Widget>, j: int, lo: int, i: int, next: int, parity: nat)
    requires lo <= i && next == i + 1 && !(InAssoc(ws, j, i) && Misc(ws[i].config) % 2 == parity)
    ensures forall n :: LastWithMisc(ws, j, lo, next, parity, n) <==> LastWithMisc(ws, j, lo, i, parity, n)
  {
    AmongNext(ws, j, lo, i, next);
    assert forall n :: LastWithMisc(ws, j, lo, i, parity, n) ==> LastWithMisc(ws, j, lo, next, parity, n);
    assert forall n :: LastWithMisc(ws, j, lo, next, parity, n) ==> LastWithMisc(ws, j, lo, i, parity, n);
  }

  lemma {:induction false} NamedIs(ws: seq<Widget>, j: int, lo: int, i: int, parity: nat)
    requires parity < 2
    ensures var k := if parity == 1 then DefaultSeq(ws, j, lo, i) else JackSeq(ws, j, lo, i);
            && (forall n :: LastWithMisc(ws, j, lo, i, parity, n) ==> k == Sequence(ws[n].config))
            && (k != -1 ==> exists n :: LastWithMisc(ws, j, lo, i, parity, n))
    decreases i - lo
  {
    if lo < i {
      var k := i - 1;
      NamedIs(ws, j, lo, k, parity);
      AmongNext(ws, j, lo, k, i);
      if InAssoc(ws, j, k) && Misc(ws[k].config) % 2 == parity {
        assert LastWithMisc(ws, j, lo, i, parity, k);
      } else {
        LastBefore(ws, j, lo, k, i, parity);
      }
    }
  }

  /** The last jack decides about redirection. */
  lemma {:induction false} RedirectsIff(ws: seq<Widget>, j: int, lo: int, i: int)
    ensures JackRedirects(ws, j, lo, i) <==>
            exists n :: LastWithMisc(ws, j, lo, i, 0, n) && (Device(ws[n].config) == 2 || FirstDir(ws, j, lo, i) == In)
    decreases i - lo
  {
    if lo < i {
      var k := i - 1;
      RedirectsIff(ws, j, lo, k);
      AmongNext(ws, j, lo, k, i);
      if InAssoc(ws, j, k) && Misc(ws[k].config) % 2 == 0 {
        assert LastWithMisc(ws, j, lo, i, 0, k);
      } else {
        LastBefore(ws, j, lo, k, i, 0);
        FirstDirStays(ws, j, lo, k, i);
      }
    }
  }

  lemma FirstDirStays(ws: seq<Widget>, j: int, lo: int, i: int, next: int)
    requires lo <= i && next == i + 1
    ensures forall n :: Among(ws, j, lo, i, n) ==> FirstDir(ws, j, lo, next) == FirstDir(ws, j, lo, i)
  {
    forall n | Among(ws, j, lo, i, n) ensures PinCount(ws, j, lo, i) != 0 {
      PinSetCount(ws, j, lo, i);
      assert n in PinSet(ws, j, lo, i);
    }
  }

  lemma LowestIs(ws: seq<Widget>, j: int, lo: int, i: int)
    requires !Live(ws, 0) && PinCount(ws, j, lo, i) > 0
    ensures IsLowestSequence(ws, j, lo, i, LowestSeq(ws, j, lo, i))
  {
    LowestSeqIs(ws, j, lo, i);
  }

  lemma SlotFields(ws: seq<Widget>, asc: Assoc, j: nat, lo: int, i: int)
    requires !Live(ws, 0) && PinCount(ws, j, lo, i) > 0
    requires var slot, first := Slot(ws, j, lo, i), LowestSeq(ws, j, lo, i);
             && asc == slot.(hpredir := asc.hpredir, defaultPin := asc.defaultPin)
             && asc.hpredir == (if j < 15 && JackRedirects(ws, j, lo, i) && asc.pincnt > 1 then first else -1)
             && asc.defaultPin == if j < 15 && slot.defaultPin < 0 then first else slot.defaultPin
    ensures FieldsOf(ws, asc, j, lo, i)
  {
    PinSetCount(ws, j, lo, i);
    DigitalIs(ws, j, lo, i);
    NamedIs(ws, j, lo, i, 0);
    NamedIs(ws, j, lo, i, 1);
    RedirectsIff(ws, j, lo, i);
    LowestIs(ws, j, lo, i);
    forall n | FirstPin(ws, j, lo, i, n)
      ensures asc.dir == if Device(ws[n].config) in {0, 1, 2, 4, 5} then Out else In
    {
      FirstDirIs(ws, j, lo, i, n);
    }
  }

  // ----- A record and its pins -----

  /** The pins of the record are the last ones of their sequences; it is enabled
      exactly if they are all, and of one direction. */
  ghost predicate PinsOf(ws: seq<Widget>, asc: Assoc, j: int, lo: int, i: int)
    requires AssocOk(asc)
  {
    && (asc.enable <==> Proper(ws, j, lo, i))
    && (forall s :: 0 <= s < PINS && asc.pins[s] != 0 ==>
          Among(ws, j, lo, i, asc.pins[s]) && Sequence(ws[asc.pins[s]].config) == s)
    && (forall n :: Among(ws, j, lo, i, n) ==> 0 < n <= asc.pins[Sequence(ws[n].config)])
    && (asc.enable ==> forall n :: Among(ws, j, lo, i, n) ==>
          asc.pins[Sequence(ws[n].config)] == n && PinDir(ws[n]) == asc.dir)
  }

  /** A redirecting record names present pins, the lowest one to share with. */
  predicate NamesPins(asc: Assoc)
    requires AssocOk(asc)
  {
    asc.hpredir >= 0 ==>
      && 0 <= asc.defaultPin < PINS && asc.pins[asc.defaultPin] != 0
      && 0 <= asc.jackPin < PINS && asc.pins[asc.jackPin] != 0
      && asc.hpredir < PINS && asc.pins[asc.hpredir] != 0
      && forall s :: 0 <= s < asc.hpredir ==> asc.pins[s] == 0
  }

  /** asc is the record of the pins of association j among lo .. i - 1. */
  ghost predicate RecordOf(ws: seq<Widget>, asc: Assoc, j: int, lo: int, i: int)
  {
    && AssocReady(asc) && PinsArePins(ws, asc) && asc.index == j && asc.chan == -1
    && PinsOf(ws, asc, j, lo, i) && FieldsOf(ws, asc, j, lo, i) && NamesPins(asc)
  }

  lemma SlotPins(ws: seq<Widget>, asc: Assoc, j: nat, lo: int, i: int)
    requires !Live(ws, 0) && PinCount(ws, j, lo, i) > 0
    requires asc == Slot(ws, j, lo, i).(hpredir := asc.hpredir, defaultPin := asc.defaultPin)
    ensures AssocOk(asc) && PinsArePins(ws, asc) && PinsOf(ws, asc, j, lo, i)
  {
    ConsistentIff(ws, j, lo, i);
    forall s | 0 <= s < PINS && asc.pins[s] != 0
      ensures Among(ws, j, lo, i, asc.pins[s]) && Sequence(ws[asc.pins[s]].config) == s
    {
      PinAtIff(ws, j, s, lo, i);
    }
    forall n | Among(ws, j, lo, i, n)
      ensures 0 < n <= asc.pins[Sequence(ws[n].config)]
      ensures asc.enable ==> asc.pins[Sequence(ws[n].config)] == n && PinDir(ws[n]) == asc.dir
    {
      PinAtIff(ws, j, Sequence(ws[n].config), lo, i);
      if asc.enable {
        PinAtExact(ws, j, lo, i, n);
      }
    }
  }

  lemma SharedRedirect(ws: seq<Widget>, j: nat, asc: Assoc)
    requires !Live(ws, 0) && PinCount(ws, j, 0, |ws|) > 0 && asc == FinalSlot(ws, j)
    requires PinsOf(ws, asc, j, 0, |ws|)
    ensures NamesPins(asc) && asc.hpredir < PINS
  {
    LowestSeqIs(ws, j, 0, |ws|);
    NamedSeqs(ws, j, 0, |ws|);
    if asc.hpredir >= 0 {
      forall s | 0 <= s < asc.hpredir ensures asc.pins[s] == 0 {
        PinAtIff(ws, j, s, 0, |ws|);
      }
    }
  }

  /** The rest of a record is as it was allocated. */
  lemma SlotReady(asc: Assoc)
    requires AssocOk(asc) && asc.dacs == ZEROS && !asc.fakeredir && -1 <= asc.hpredir < PINS
    ensures AssocReady(asc)
  {
  }

  lemma SharedRecord(ws: seq<Widget>, j: nat)
    requires !Live(ws, 0) && 1 <= j < LAST && PinCount(ws, j, 0, |ws|) > 0
    ensures RecordOf(ws, FinalSlot(ws, j), j, 0, |ws|)
  {
    var asc := FinalSlot(ws, j);
    SlotPins(ws, asc, j, 0, |ws|);
    SlotFields(ws, asc, j, 0, |ws|);
    SharedRedirect(ws, j, asc);
    SlotReady(asc);
  }

  lemma SingleRecord(ws: seq<Widget>, n: int)
    requires !Live(ws, 0) && InAssoc(ws, LAST, n)
    ensures RecordOf(ws, Slot(ws, LAST, n, n + 1), LAST, n, n + 1)
    ensures Slot(ws, LAST, n, n + 1).enable
  {
    assert PinCount(ws, LAST, n, n + 1) == 1;
    SlotPins(ws, Slot(ws, LAST, n, n + 1), LAST, n, n + 1);
    SlotFields(ws, Slot(ws, LAST, n, n + 1), LAST, n, n + 1);
    SlotReady(Slot(ws, LAST, n, n + 1));
  }

  // ----- The table and all pins -----

  ghost predicate OwnRecord(ws: seq<Widget>, asc: Assoc)
  {
    || (exists j :: 1 <= j < LAST && RecordOf(ws, asc, j, 0, |ws|))
    || (exists n :: InAssoc(ws, LAST, n) && RecordOf(ws, asc, LAST, n, n + 1))
  }

  /** Which association slot a of the table stands for. */
  lemma {:induction false} SlotOwner(ws: seq<Widget>, a: nat, j: nat)
    requires 1 <= j <= LAST && a < SlotsBelow(ws, j)
    ensures exists k :: 1 <= k < j && PinCount(ws, k, 0, |ws|) > 0 && SlotsBelow(ws, k) == a
    decreases j
  {
    if a < SlotsBelow(ws, j - 1) {
      SlotOwner(ws, a, j - 1);
    } else {
      assert PinCount(ws, j - 1, 0, |ws|) > 0 && SlotsBelow(ws, j - 1) == a;
    }
  }

  lemma {:induction false} SinglePin(ws: seq<Widget>, c: nat, i: nat)
    requires c < PinCount(ws, LAST, 0, i)
    ensures exists n :: 0 <= n < i && InAssoc(ws, LAST, n) && PinCount(ws, LAST, 0, n) == c
    decreases i
  {
    if c < PinCount(ws, LAST, 0, i - 1) {
      SinglePin(ws, c, i - 1);
    }
  }

  /** Every record of the table is the record of its pins, and every enabled
      pin of association 1 .. 15 has a record. */
  lemma TableMeaning(ws: seq<Widget>, assocs: seq<Assoc>)
    requires !Live(ws, 0) && Table(ws, assocs, LAST + 1)
    ensures forall a :: 0 <= a < |assocs| ==> OwnRecord(ws, assocs[a])
    ensures forall n :: Live(ws, n) && ws[n].kind == PinComplex && Association(ws[n].config) != 0 ==>
              exists a :: 0 <= a < |assocs| && assocs[a].index == Association(ws[n].config)
                          && AssocOk(assocs[a]) && assocs[a].pins[Sequence(ws[n].config)] != 0
                          && (assocs[a].enable ==> assocs[a].pins[Sequence(ws[n].config)] == n)
  {
    forall a | 0 <= a < |assocs| ensures OwnRecord(ws, assocs[a]) {
      SlotMeaning(ws, assocs, a);
    }
    forall n | Live(ws, n) && ws[n].kind == PinComplex && Association(ws[n].config) != 0
      ensures exists a :: 0 <= a < |assocs| && assocs[a].index == Association(ws[n].config)
                          && AssocOk(assocs[a]) && assocs[a].pins[Sequence(ws[n].config)] != 0
                          && (assocs[a].enable ==> assocs[a].pins[Sequence(ws[n].config)] == n)
    {
      var a := PinMeaning(ws, assocs, n);
    }
  }

  lemma SlotMeaning(ws: seq<Widget>, assocs: seq<Assoc>, a: nat)
    requires !Live(ws, 0) && Table(ws, assocs, LAST + 1) && a < |assocs|
    ensures OwnRecord(ws, assocs[a])
  {
    if a < SlotsBelow(ws, LAST) {
      SlotOwner(ws, a, LAST);
      var k :| 1 <= k < LAST && PinCount(ws, k, 0, |ws|) > 0 && SlotsBelow(ws, k) == a;
      assert SharedAt(ws, assocs, k);
      SharedRecord(ws, k);
    } else {
      assert SlotsBelow(ws, LAST + 1) == SlotsBelow(ws, LAST) + PinCount(ws, LAST, 0, |ws|);
      SinglePin(ws, a - SlotsBelow(ws, LAST), |ws|);
      var n :| 0 <= n < |ws| && InAssoc(ws, LAST, n) && PinCount(ws, LAST, 0, n) == a - SlotsBelow(ws, LAST);
      assert SingleAt(ws, assocs, SlotsBelow(ws, LAST), n);
      SingleRecord(ws, n);
    }
  }

  lemma PinMeaning(ws: seq<Widget>, assocs: seq<Assoc>, n: int) returns (a: nat)
    requires !Live(ws, 0) && Table(ws, assocs, LAST + 1)
    requires Live(ws, n) && ws[n].kind == PinComplex && Association(ws[n].config) != 0
    ensures a < |assocs| && assocs[a].index == Association(ws[n].config)
    ensures AssocOk(assocs[a]) && assocs[a].pins[Sequence(ws[n].config)] != 0
    ensures assocs[a].enable ==> assocs[a].pins[Sequence(ws[n].config)] == n
  {
    var j := Association(ws[n].config);
    if j < LAST {
      SharedPin(ws, j, n);
      assert SharedAt(ws, assocs, j);
      a := SlotsBelow(ws, j);
    } else {
      SingleRecord(ws, n);
      assert SingleAt(ws, assocs, SlotsBelow(ws, LAST), n);
      RecordPin(ws, Slot(ws, LAST, n, n + 1), LAST, n, n + 1, n);
      a := SlotsBelow(ws, LAST) + PinCount(ws, LAST, 0, n);
    }
  }

  lemma SharedPin(ws: seq<Widget>, j: nat, n: int)
    requires !Live(ws, 0) && 1 <= j < LAST && InAssoc(ws, j, n)
    ensures PinCount(ws, j, 0, |ws|) > 0
    ensures var asc := FinalSlot(ws, j);
            && AssocOk(asc) && asc.index == j && asc.pins[Sequence(ws[n].config)] != 0
            && (asc.enable ==> asc.pins[Sequence(ws[n].config)] == n)
  {
    assert Among(ws, j, 0, |ws|, n);
    FirstDirOf(ws, j, 0, |ws|);
    SharedRecord(ws, j);
    RecordPin(ws, FinalSlot(ws, j), j, 0, |ws|, n);
  }

  lemma RecordPin(ws: seq<Widget>, asc: Assoc, j: int, lo: int, i: int, n: int)
    requires RecordOf(ws, asc, j, lo, i) && lo <= n < i && InAssoc(ws, j, n)
    ensures AssocOk(asc) && asc.index == j && asc.pins[Sequence(ws[n].config)] != 0
    ensures asc.enable ==> asc.pins[Sequence(ws[n].config)] == n
  {
    assert Among(ws, j, lo, i, n);
  }

  // ----- How many records there are, and in which order -----

  /** The indices below j of the associations that have pins. */
  ghost function UsedBelow(ws: seq<Widget>, j: nat): set<int>
  {
    set k | 1 <= k < j && PinSet(ws, k, 0, |ws|) != {}
  }

  lemma UsedNext(ws: seq<Widget>, j: nat, next: nat)
    requires 1 <= j && next == j + 1
    ensures UsedBelow(ws, next) == UsedBelow(ws, j) + if PinSet(ws, j, 0, |ws|) != {} then {j} else {}
    ensures |UsedBelow(ws, next)| == |UsedBelow(ws, j)| + if |PinSet(ws, j, 0, |ws|)| > 0 then 1 else 0
  {
    assert j !in UsedBelow(ws, j);
  }

  lemma SlotsNext(ws: seq<Widget>, j: nat, next: nat)
    requires 1 <= j < 15 && next == j + 1
    ensures SlotsBelow(ws, next) == SlotsBelow(ws, j) + if PinCount(ws, j, 0, |ws|) > 0 then 1 else 0
  {
  }

  lemma {:induction false} SlotsCounted(ws: seq<Widget>, j: nat)
    requires j <= 15
    ensures SlotsBelow(ws, j) == |UsedBelow(ws, j)|
  {
    if j > 1 {
      SlotsCounted(ws, j - 1);
      PinSetCount(ws, j - 1, 0, |ws|);
      UsedNext(ws, j - 1, j);
      SlotsNext(ws, j - 1, j);
    } else {
      assert UsedBelow(ws, j) == {};
    }
  }

  /** One record for each of the associations 1 to 14 that has pins, and one for
      each pin of association 15. */
  lemma TableLength(ws: seq<Widget>)
    ensures SlotsBelow(ws, LAST + 1) == |UsedBelow(ws, 15)| + |PinSet(ws, 15, 0, |ws|)|
  {
    SlotsCounted(ws, 15);
    PinSetCount(ws, 15, 0, |ws|);
  }

  /** The place of the record of a pin: n of association 15, else any. */
  lemma OwnerIndex(ws: seq<Widget>, assocs: seq<Assoc>, a: nat) returns (k: nat, n: int)
    requires !Live(ws, 0) && Table(ws, assocs, LAST + 1) && a < |assocs|
    ensures 1 <= k <= 15 && assocs[a].index == k && AssocOk(assocs[a])
    ensures k < 15 ==> SlotsBelow(ws, k) == a
    ensures k == 15 ==> InAssoc(ws, 15, n) && a == SlotsBelow(ws, 15) + PinCount(ws, 15, 0, n)
    ensures k == 15 ==> forall s :: 0 <= s < PINS && assocs[a].pins[s] != 0 ==> assocs[a].pins[s] == n
  {
    if a < SlotsBelow(ws, LAST) {
      SlotOwner(ws, a, LAST);
      k :| 1 <= k < LAST && PinCount(ws, k, 0, |ws|) > 0 && SlotsBelow(ws, k) == a;
      n := 0;
      assert SharedAt(ws, assocs, k);
    } else {
      assert SlotsBelow(ws, LAST + 1) == SlotsBelow(ws, LAST) + PinCount(ws, LAST, 0, |ws|);
      SinglePin(ws, a - SlotsBelow(ws, LAST), |ws|);
      k := 15;
      n :| 0 <= n < |ws| && InAssoc(ws, LAST, n) && PinCount(ws, LAST, 0, n) == a - SlotsBelow(ws, LAST);
      assert SingleAt(ws, assocs, SlotsBelow(ws, LAST), n);
      SingleRecord(ws, n);
    }
  }

  /** The records are in the order of their associations, those of association
      15 in the order of their pins. */
  lemma TableOrder(ws: seq<Widget>, assocs: seq<Assoc>, a: nat, b: nat)
    requires !Live(ws, 0) && Table(ws, assocs, LAST + 1) && a < b < |assocs|
    ensures AssocOk(assocs[a]) && AssocOk(assocs[b])
    ensures assocs[a].index < assocs[b].index || assocs[a].index == assocs[b].index == 15
    ensures assocs[a].index == 15 ==>
              forall s, t :: 0 <= s < PINS && 0 <= t < PINS && assocs[a].pins[s] != 0 && assocs[b].pins[t] != 0 ==>
                assocs[a].pins[s] < assocs[b].pins[t]
  {
    var k, n := OwnerIndex(ws, assocs, a);
    var l, m := OwnerIndex(ws, assocs, b);
    if l <= k {
      SlotsGrow(ws, l, k);
    }
    if k == 15 && l == 15 && m <= n {
      PinCountGrows(ws, 15, m, n);
    }
  }

  // ----- A speaker with headphones -----

  /** The fields of the configurations 0x90170110 and 0x0321101F: a fixed
      speaker of sequence 0 and a headphone jack of sequence 15, both of
      association 1. */
  lemma SpeakerAndHeadphones()
    ensures Association(0x9017_0110) == Association(0x0321_101F) == 1
    ensures Sequence(0x9017_0110) == 0 && Sequence(0x0321_101F) == 15
    ensures Misc(0x9017_0110) % 2 == 1 && Misc(0x0321_101F) % 2 == 0
    ensures Device(0x9017_0110) == 1 && Device(0x0321_101F) == 2
    ensures Connectivity(0x9017_0110) == 2 && Connectivity(0x0321_101F) == 0
  {
  }

  /** The driver's fields are those of the layout editor. */
  lemma FieldsAgree(config: nat)
    ensures var d := Fields.DecodePin(config);
            && Sequence(config) == d.sequence && Association(config) == d.assoc && Misc(config) == d.misc
            && Device(config) == d.device && Connectivity(config) == d.connectivity
  {
  }

  /** Such a codec: the association redirects the headphones to the speaker. */
  lemma HeadphonesRedirected(ws: seq<Widget>, asc: Assoc)
    requires |ws| == 6 && !ws[0].enable && (forall n :: 0 <= n < 4 ==> ws[n].kind != PinComplex)
    requires ws[4].enable && ws[4].kind == PinComplex && ws[4].config == 0x9017_0110
    requires ws[5].enable && ws[5].kind == PinComplex && ws[5].config == 0x0321_101F
    requires RecordOf(ws, asc, 1, 0, 6)
    ensures asc.enable && asc.dir == Out && asc.pincnt == 2 && asc.pins[0] == 4 && asc.pins[15] == 5
    ensures asc.hpredir == 0 && asc.jackPin == 15 && asc.defaultPin == 0
  {
    SpeakerAndHeadphones();
    assert forall n :: Among(ws, 1, 0, 6, n) <==> n == 4 || n == 5;
    assert FirstPin(ws, 1, 0, 6, 4);
    assert LastWithMisc(ws, 1, 0, 6, 0, 5) && LastWithMisc(ws, 1, 0, 6, 1, 4);
    assert PinSet(ws, 1, 0, 6) == {4, 5};
  }
}
