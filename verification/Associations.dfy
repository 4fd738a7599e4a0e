/** audioAssociationParse: groups the enabled pins by the association field of
    their configuration default.  Associations 1 to 14 gather all their pins,
    association 15 stands for many one-pin associations. */
module AssociationParser {
  import opened HdaGraph

  const LAST: nat := 15
  const MAX_ASSOCS: nat := 50

  /** Widget n is an enabled pin of association j. */
  predicate InAssoc(ws: seq<Widget>, j: int, n: int)
  {
    Live(ws, n) && ws[n].kind == PinComplex && Association(ws[n].config) == j
  }

  function PinDir(w: Widget): Dir
  {
    if IsOutputDevice(w.config) then Out else In
  }

  predicate IsDefault(w: Widget)
  {
    Misc(w.config) % 2 == 1
  }

  // ----- The pins of association j among the nodes lo .. i - 1 -----

  function PinCount(ws: seq<Widget>, j: int, lo: int, i: int): nat
    decreases i - lo
  {
    if i <= lo then 0 else PinCount(ws, j, lo, i - 1) + if InAssoc(ws, j, i - 1) then 1 else 0
  }

  /** The last pin with sequence s, 0 for none. */
  function PinAt(ws: seq<Widget>, j: int, s: int, lo: int, i: int): int
    decreases i - lo
  {
    if i <= lo then 0
    else if InAssoc(ws, j, i - 1) && Sequence(ws[i - 1].config) == s then i - 1
    else PinAt(ws, j, s, lo, i - 1)
  }

  /** The direction of the first pin. */
  function FirstDir(ws: seq<Widget>, j: int, lo: int, i: int): Dir
    decreases i - lo
  {
    if i <= lo then In
    else if InAssoc(ws, j, i - 1) && PinCount(ws, j, lo, i - 1) == 0 then PinDir(ws[i - 1])
    else FirstDir(ws, j, lo, i - 1)
  }

  /** No two pins share a sequence and all have the direction of the first. */
  predicate Consistent(ws: seq<Widget>, j: int, lo: int, i: int)
    decreases i - lo
  {
    i <= lo ||
    (&& Consistent(ws, j, lo, i - 1)
     && (InAssoc(ws, j, i - 1) ==>
           && PinAt(ws, j, Sequence(ws[i - 1].config), lo, i - 1) == 0
           && PinDir(ws[i - 1]) == FirstDir(ws, j, lo, i)))
  }

  /** The lowest sequence, 16 for none. */
  function LowestSeq(ws: seq<Widget>, j: int, lo: int, i: int): (s: nat)
    ensures s <= PINS
    decreases i - lo
  {
    if i <= lo then PINS
    else
      var s := LowestSeq(ws, j, lo, i - 1);
      if InAssoc(ws, j, i - 1) && Sequence(ws[i - 1].config) < s then Sequence(ws[i - 1].config) else s
  }

  /** The sequence of the last default pin, -1 for none. */
  function DefaultSeq(ws: seq<Widget>, j: int, lo: int, i: int): int
    decreases i - lo
  {
    if i <= lo then -1
    else if InAssoc(ws, j, i - 1) && IsDefault(ws[i - 1]) then Sequence(ws[i - 1].config)
    else DefaultSeq(ws, j, lo, i - 1)
  }

  /** The sequence of the last jack, -1 for none. */
  function JackSeq(ws: seq<Widget>, j: int, lo: int, i: int): int
    decreases i - lo
  {
    if i <= lo then -1
    else if InAssoc(ws, j, i - 1) && !IsDefault(ws[i - 1]) then Sequence(ws[i - 1].config)
    else JackSeq(ws, j, lo, i - 1)
  }

  /** The last jack asks for redirection: headphones, or an input jack. */
  predicate JackRedirects(ws: seq<Widget>, j: int, lo: int, i: int)
    decreases i - lo
  {
    i > lo &&
    if InAssoc(ws, j, i - 1) && !IsDefault(ws[i - 1]) then
      IsHeadphones(ws[i - 1].config) || FirstDir(ws, j, lo, i) == In
    else
      JackRedirects(ws, j, lo, i - 1)
  }

  /** How the last digital pin is digital: 3 DisplayPort, 2 HDMI, 1 other. */
  function DigitalKind(ws: seq<Widget>, j: int, lo: int, i: int): nat
    decreases i - lo
  {
    if i <= lo then 0
    else if InAssoc(ws, j, i - 1) && ws[i - 1].digitalCap != 0 then ws[i - 1].digitalCap
    else DigitalKind(ws, j, lo, i - 1)
  }

  // ----- The records -----

  const ZEROS: seq<int> := [0, 0, 0, 0, 0, 0, 0, 0, 0, 0, 0, 0, 0, 0, 0, 0]

  /** A freshly allocated record. */
  const BLANK: Assoc := Assoc(false, 0, In, 0, false, 1, -1, ZEROS, ZEROS, -1, 0, 0)

  predicate IsBlank(asc: Assoc)
  {
    asc == BLANK
  }

  /** The record after the nodes lo .. i - 1 have been seen. */
  function Slot(ws: seq<Widget>, j: nat, lo: int, i: int): Assoc
  {
    if PinCount(ws, j, lo, i) == 0 then BLANK
    else Assoc(Consistent(ws, j, lo, i), j, FirstDir(ws, j, lo, i), PinCount(ws, j, lo, i), false,
               DigitalKind(ws, j, lo, i), -1, seq(PINS, s => PinAt(ws, j, s, lo, i)), ZEROS, -1,
               DefaultSeq(ws, j, lo, i), JackSeq(ws, j, lo, i))
  }

  /** The record of an association 1 .. 14 after its last pin. */
  function FinalSlot(ws: seq<Widget>, j: nat): Assoc
  {
    var asc := Slot(ws, j, 0, |ws|);
    var first := LowestSeq(ws, j, 0, |ws|);
    asc.(hpredir := if JackRedirects(ws, j, 0, |ws|) && asc.pincnt > 1 then first else -1,
         defaultPin := if asc.defaultPin < 0 then first else asc.defaultPin)
  }

  /** The number of associations with an index below j. */
  function SlotsBelow(ws: seq<Widget>, j: nat): nat
  {
    if j <= 1 then 0
    else if j - 1 == LAST then SlotsBelow(ws, j - 1) + PinCount(ws, LAST, 0, |ws|)
    else SlotsBelow(ws, j - 1) + if PinCount(ws, j - 1, 0, |ws|) > 0 then 1 else 0
  }

  /** Association k, if it has pins, has its record. */
  ghost predicate SharedAt(ws: seq<Widget>, assocs: seq<Assoc>, k: nat)
  {
    PinCount(ws, k, 0, |ws|) > 0 ==> SlotsBelow(ws, k) < |assocs| && assocs[SlotsBelow(ws, k)] == FinalSlot(ws, k)
  }

  /** Pin n of association 15 has its record, the records starting at base. */
  ghost predicate SingleAt(ws: seq<Widget>, assocs: seq<Assoc>, base: nat, n: int)
  {
    InAssoc(ws, LAST, n) ==>
      && base + PinCount(ws, LAST, 0, n) < |assocs|
      && assocs[base + PinCount(ws, LAST, 0, n)] == Slot(ws, LAST, n, n + 1)
  }

  /** The table of associations: 1 .. 14 in order, then the pins of 15. */
  ghost predicate Table(ws: seq<Widget>, assocs: seq<Assoc>, j: nat)
  {
    && |assocs| == SlotsBelow(ws, LAST + 1)
    && (forall k: nat :: 1 <= k < j && k < LAST ==> SharedAt(ws, assocs, k))
    && (j > LAST ==> forall n :: SingleAt(ws, assocs, SlotsBelow(ws, LAST), n))
  }

  // ----- Counting pass -----

  method CountAssociations(fg: FunctionGroup) returns (max: nat)
    requires fg.ValidWidgets()
    ensures max == SlotsBelow(fg.widgets[..], LAST + 1)
  {
    ghost var ws := fg.widgets[..];
    max := 0;
    var j := 1;
    while j <= LAST
      invariant 1 <= j <= LAST + 1
      invariant max == SlotsBelow(ws, j)
    {
      ghost var base := max;
      NoPinsBelow(ws, j, fg.startNode);
      var i := fg.startNode;
      while i < fg.widgets.Length
        invariant fg.startNode <= i <= fg.widgets.Length
        invariant max == base + PinCount(ws, j, 0, i)
        invariant j != LAST ==> max == base
      {
        assert PinCount(ws, j, 0, i + 1) == PinCount(ws, j, 0, i) + if InAssoc(ws, j, i) then 1 else 0;
        if fg.widgets[i].enable && fg.widgets[i].kind == PinComplex && Association(fg.widgets[i].config) == j {
          max := max + 1;
          if j != LAST {
            PinCountGrows(ws, j, i + 1, |ws|);
            break;
          }
        }
        i := i + 1;
      }
      j := j + 1;
    }
  }

  lemma {:induction false} NoPinsBelow(ws: seq<Widget>, j: int, i: int)
    requires i <= |ws| && forall n :: 0 <= n < i ==> !ws[n].enable
    ensures PinCount(ws, j, 0, i) == 0
    decreases if i < 0 then 0 else i
  {
    if i > 0 {
      NoPinsBelow(ws, j, i - 1);
    }
  }

  lemma {:induction false} PinCountGrows(ws: seq<Widget>, j: int, i: int, k: int)
    requires 0 <= i <= k
    ensures PinCount(ws, j, 0, i) <= PinCount(ws, j, 0, k)
    decreases k - i
  {
    if i < k {
      PinCountGrows(ws, j, i, k - 1);
    }
  }

  // ----- Filling pass -----

  lemma {:induction false} PinAtRange(ws: seq<Widget>, j: int, s: int, lo: int, i: int)
    requires 0 <= lo && i <= |ws|
    ensures var n := PinAt(ws, j, s, lo, i);
            n != 0 ==> lo <= n < i && InAssoc(ws, j, n) && Sequence(ws[n].config) == s
    decreases i - lo
  {
    if lo < i {
      PinAtRange(ws, j, s, lo, i - 1);
    }
  }

  /** What one more pin adds to each part of the record. */
  lemma SlotStep(ws: seq<Widget>, j: nat, lo: int, n: nat, next: int)
    requires 1 <= n && lo <= n && next == n + 1 && InAssoc(ws, j, n)
    ensures var w := ws[n];
            var s := Sequence(w.config);
            var asc := Slot(ws, j, lo, n);
            var asc' := Slot(ws, j, lo, next);
            var dir := if asc.pincnt == 0 then PinDir(w) else asc.dir;
            && asc'.pincnt == asc.pincnt + 1 && asc'.index == j && asc'.dir == dir == FirstDir(ws, j, lo, next)
            && asc'.enable == ((asc.pincnt == 0 || asc.enable) && asc.pins[s] == 0 && PinDir(w) == dir)
            && asc'.digital == (if w.digitalCap != 0 then w.digitalCap else if asc.pincnt == 0 then 0 else asc.digital)
            && asc'.pins == asc.pins[s := n]
            && asc'.defaultPin == (if IsDefault(w) then s else if asc.pincnt == 0 then -1 else asc.defaultPin)
            && asc'.jackPin == (if IsDefault(w) then (if asc.pincnt == 0 then -1 else asc.jackPin) else s)
            && asc' == asc.(enable := asc'.enable, index := j, dir := dir, pincnt := asc'.pincnt,
                            digital := asc'.digital, pins := asc'.pins, defaultPin := asc'.defaultPin,
                            jackPin := asc'.jackPin)
  {
    assert PinCount(ws, j, lo, next) == PinCount(ws, j, lo, n) + 1;
    assert FirstDir(ws, j, lo, next) == if PinCount(ws, j, lo, n) == 0 then PinDir(ws[n]) else FirstDir(ws, j, lo, n);
    if PinCount(ws, j, lo, n) == 0 {
      NoPins(ws, j, lo, n);
    }
    var s := Sequence(ws[n].config);
    assert seq(PINS, t => PinAt(ws, j, t, lo, next)) == seq(PINS, t => PinAt(ws, j, t, lo, n))[s := n];
    assert Slot(ws, j, lo, n).pins == seq(PINS, t => PinAt(ws, j, t, lo, n));
  }

  lemma {:induction false} NoPins(ws: seq<Widget>, j: int, lo: int, i: int)
    requires PinCount(ws, j, lo, i) == 0
    ensures forall s :: PinAt(ws, j, s, lo, i) == 0
    ensures Consistent(ws, j, lo, i) && DigitalKind(ws, j, lo, i) == 0
    ensures DefaultSeq(ws, j, lo, i) == -1 && JackSeq(ws, j, lo, i) == -1
    decreases i - lo
  {
    if lo < i {
      NoPins(ws, j, lo, i - 1);
    }
  }

  /** The record with one more pin n, of sequence s and direction dir. */
  method JoinPin(record: Assoc, s: nat, dir: Dir, isDefault: bool, digitalCap: nat, j: nat, n: nat) returns (asc: Assoc)
    requires AssocOk(record) && s < PINS
    ensures var d := if record.pincnt == 0 then dir else record.dir;
            asc == record.(enable := (record.pincnt == 0 || record.enable) && record.pins[s] == 0 && dir == d,
                           index := if record.pincnt == 0 then j else record.index,
                           dir := d, pincnt := record.pincnt + 1, pins := record.pins[s := n],
                           hpredir := if record.pincnt == 0 then -1 else record.hpredir,
                           digital := if digitalCap != 0 then digitalCap else if record.pincnt == 0 then 0
                             else record.digital,
                           defaultPin := if isDefault then s else if record.pincnt == 0 then -1 else record.defaultPin,
                           jackPin := if !isDefault then s else if record.pincnt == 0 then -1 else record.jackPin)
  {
    asc := record;
    if asc.pincnt == 0 {
      asc := asc.(enable := true, index := j, dir := dir, hpredir := -1, defaultPin := -1, jackPin := -1, digital := 0);
    }
    if asc.pins[s] != 0 {
      asc := asc.(enable := false);
    }
    if dir != asc.dir {
      asc := asc.(enable := false);
    }
    if digitalCap != 0 {
      asc := asc.(digital := digitalCap);
    }
    if isDefault {
      asc := asc.(defaultPin := s);
    } else {
      asc := asc.(jackPin := s);
    }
    asc := asc.(pins := asc.pins[s := n], pincnt := asc.pincnt + 1);
  }

  /** One pin joins the record `assocs[cnt]`. */
  method AddPin(fg: FunctionGroup, assocs: array<Assoc>, cnt: nat, j: nat, n: nat, ghost lo: int, first: nat,
                hpredir: bool) returns (first': nat, hpredir': bool)
    requires cnt < assocs.Length
    requires 1 <= n && 0 <= lo <= n && InAssoc(fg.widgets[..], j, n)
    requires assocs[cnt] == Slot(fg.widgets[..], j, lo, n)
    modifies assocs
    ensures assocs[cnt] == Slot(fg.widgets[..], j, lo, n + 1)
    ensures forall a :: 0 <= a < assocs.Length && a != cnt ==> assocs[a] == old(assocs[a])
    ensures first == LowestSeq(fg.widgets[..], j, lo, n) ==> first' == LowestSeq(fg.widgets[..], j, lo, n + 1)
    ensures hpredir' == (if IsDefault(fg.widgets[n]) then hpredir
                         else IsHeadphones(fg.widgets[n].config) || FirstDir(fg.widgets[..], j, lo, n + 1) == In)
  {
    ghost var ws := fg.widgets[..];
    ghost var next := n + 1;
    var widget := fg.widgets[n];
    SlotStep(ws, j, lo, n, next);
    assert AssocOk(assocs[cnt]);
    var dir := if IsOutputDevice(widget.config) then Out else In;
    var asc := JoinPin(assocs[cnt], Sequence(widget.config), dir, Misc(widget.config) % 2 == 1, widget.digitalCap, j,
                       n);
    assert asc == Slot(ws, j, lo, next);
    first' := if Sequence(widget.config) < first then Sequence(widget.config) else first;
    hpredir' := hpredir;
    if Misc(widget.config) % 2 != 1 {
      hpredir' := IsHeadphones(widget.config) || asc.dir == In;
    }
    assocs[cnt] := asc;
  }

  lemma {:induction false} NothingSeen(ws: seq<Widget>, j: int, i: int)
    requires 0 <= i <= |ws| && PinCount(ws, j, 0, i) == 0
    ensures LowestSeq(ws, j, 0, i) == PINS && !JackRedirects(ws, j, 0, i)
    decreases i
  {
    if i > 0 {
      NothingSeen(ws, j, i - 1);
    }
  }

  /** The records from `from` on have not been used. */
  predicate BlankFrom(assocs: seq<Assoc>, from: int)
  {
    forall a :: 0 <= a < |assocs| && from <= a ==> IsBlank(assocs[a])
  }

  /** Pins below i of association 15, one record each from `cnt0` on. */
  ghost predicate Singles(ws: seq<Widget>, assocs: seq<Assoc>, cnt0: nat, i: int)
  {
    forall n :: n < i ==> SingleAt(ws, assocs, cnt0, n)
  }

  /** The pins of association j join record cnt. */
  method GatherPins(fg: FunctionGroup, assocs: array<Assoc>, cnt: nat, j: nat) returns (first: nat, hpredir: bool)
    requires fg.ValidWidgets() && cnt < assocs.Length && 1 <= j < LAST && assocs[cnt] == BLANK
    modifies assocs
    ensures var ws := fg.widgets[..];
            && assocs[cnt] == Slot(ws, j, 0, |ws|)
            && first == LowestSeq(ws, j, 0, |ws|) && hpredir == JackRedirects(ws, j, 0, |ws|)
    ensures forall a :: 0 <= a < assocs.Length && a != cnt ==> assocs[a] == old(assocs[a])
  {
    ghost var ws := fg.widgets[..];
    first, hpredir := PINS, false;
    NoPinsBelow(ws, j, fg.startNode);
    NothingSeen(ws, j, fg.startNode);
    var i := fg.startNode;
    while i < fg.widgets.Length
      invariant fg.startNode <= i <= fg.widgets.Length
      invariant assocs[cnt] == Slot(ws, j, 0, i)
      invariant first == LowestSeq(ws, j, 0, i) && hpredir == JackRedirects(ws, j, 0, i)
      invariant forall a :: 0 <= a < assocs.Length && a != cnt ==> assocs[a] == old(assocs[a])
    {
      assert Slot(ws, j, 0, i + 1) == Slot(ws, j, 0, i) || InAssoc(ws, j, i);
      if fg.widgets[i].enable && fg.widgets[i].kind == PinComplex && Association(fg.widgets[i].config) == j {
        first, hpredir := AddPin(fg, assocs, cnt, j, i, 0, first, hpredir);
      }
      i := i + 1;
    }
  }

  /** Association 1 .. 14: all its pins join one record. */
  method FillShared(fg: FunctionGroup, assocs: array<Assoc>, cnt: nat, j: nat) returns (cnt': nat)
    requires fg.ValidWidgets() && cnt < assocs.Length && 1 <= j < LAST
    requires BlankFrom(assocs[..], cnt)
    modifies assocs
    ensures cnt' == cnt + if PinCount(fg.widgets[..], j, 0, fg.widgets.Length) > 0 then 1 else 0
    ensures cnt' > cnt ==> assocs[cnt] == FinalSlot(fg.widgets[..], j)
    ensures forall a :: 0 <= a < assocs.Length && a != cnt ==> assocs[a] == old(assocs[a])
    ensures cnt' == cnt ==> assocs[cnt] == BLANK
  {
    assert IsBlank(assocs[cnt]);
    var first, hpredir := GatherPins(fg, assocs, cnt, j);
    cnt' := cnt;
    if assocs[cnt].pincnt > 0 {
      if hpredir && assocs[cnt].pincnt > 1 {
        assocs[cnt] := assocs[cnt].(hpredir := first);
      }
      if assocs[cnt].defaultPin < 0 {
        assocs[cnt] := assocs[cnt].(defaultPin := first);
      }
      cnt' := cnt + 1;
    }
  }

  lemma SingleStart(ws: seq<Widget>, n: nat)
    requires InAssoc(ws, LAST, n)
    ensures Slot(ws, LAST, n, n) == BLANK
  {
  }

  /** Association 15: every pin takes a record of its own.  The overflow exit
      is never taken. */
  method FillSingles(fg: FunctionGroup, assocs: array<Assoc>, cnt: nat) returns (cnt': nat, overflow: bool)
    requires fg.ValidWidgets()
    requires assocs.Length == cnt + PinCount(fg.widgets[..], LAST, 0, fg.widgets.Length)
    requires BlankFrom(assocs[..], cnt)
    modifies assocs
    ensures !overflow && cnt' == assocs.Length
    ensures Singles(fg.widgets[..], assocs[..], cnt, fg.widgets.Length)
    ensures forall a :: 0 <= a < cnt ==> assocs[a] == old(assocs[a])
  {
    ghost var ws := fg.widgets[..];
    overflow := false;
    cnt' := cnt;
    var first, hpredir := PINS, false;
    NoPinsBelow(ws, LAST, fg.startNode);
    var i := fg.startNode;
    while i < fg.widgets.Length
      invariant fg.startNode <= i <= fg.widgets.Length
      invariant !overflow && cnt' == cnt + PinCount(ws, LAST, 0, i)
      invariant Singles(ws, assocs[..], cnt, i)
      invariant forall a :: 0 <= a < cnt ==> assocs[a] == old(assocs[a])
      invariant BlankFrom(assocs[..], cnt')
    {
      ghost var c, before := cnt', assocs[..];
      var k := i;
      i := i + 1;
      if fg.widgets[k].enable && fg.widgets[k].kind == PinComplex && Association(fg.widgets[k].config) == LAST {
        PinCountGrows(ws, LAST, i, |ws|);
        if cnt' >= assocs.Length {
          overflow := true;
          break;
        }
        SingleStart(ws, k);
        first, hpredir := AddPin(fg, assocs, cnt', LAST, k, k, first, hpredir);
        cnt' := cnt' + 1;
        SinglesStep(ws, before, assocs[..], cnt, c, k, i, cnt');
      } else {
        SinglesSkip(ws, before, cnt, k, i);
      }
    }
  }

  lemma SinglesSkip(ws: seq<Widget>, assocs: seq<Assoc>, cnt: nat, i: nat, next: nat)
    requires next == i + 1 && !InAssoc(ws, LAST, i) && Singles(ws, assocs, cnt, i)
    ensures Singles(ws, assocs, cnt, next)
    ensures PinCount(ws, LAST, 0, next) == PinCount(ws, LAST, 0, i)
  {
  }

  lemma SinglesStep(ws: seq<Widget>, before: seq<Assoc>, after: seq<Assoc>, cnt: nat, c: nat, i: nat, next: nat,
                    cnt': nat)
    requires next == i + 1 && cnt' == c + 1 && c == cnt + PinCount(ws, LAST, 0, i)
    requires Singles(ws, before, cnt, i) && |after| == |before| && InAssoc(ws, LAST, i)
    requires c < |before| && after[c] == Slot(ws, LAST, i, i + 1)
    requires forall a :: 0 <= a < |before| && a != c ==> after[a] == before[a]
    requires BlankFrom(before, c)
    ensures Singles(ws, after, cnt, next)
    ensures BlankFrom(after, cnt')
    ensures PinCount(ws, LAST, 0, next) == PinCount(ws, LAST, 0, i) + 1
  {
    SinglesApart(ws, i);
    forall n | n < next ensures SingleAt(ws, after, cnt, n) {
      assert n < i ==> SingleAt(ws, before, cnt, n);
    }
    forall a | 0 <= a < |after| && cnt' <= a ensures IsBlank(after[a]) {
      assert IsBlank(before[a]);
    }
  }

  /** Earlier pins have smaller numbers. */
  lemma SinglesApart(ws: seq<Widget>, i: nat)
    requires i < |ws|
    ensures forall n :: n < i && InAssoc(ws, LAST, n) ==> PinCount(ws, LAST, 0, n) < PinCount(ws, LAST, 0, i)
  {
    forall n | n < i && InAssoc(ws, LAST, n) ensures PinCount(ws, LAST, 0, n) < PinCount(ws, LAST, 0, i) {
      assert PinCount(ws, LAST, 0, n + 1) == PinCount(ws, LAST, 0, n) + 1;
      PinCountGrows(ws, LAST, n + 1, i);
    }
  }

  /** The table built so far holds the associations below j. */
  ghost predicate Filled(ws: seq<Widget>, assocs: seq<Assoc>, j: nat, cnt: nat)
  {
    && 1 <= j <= LAST + 1 && cnt == SlotsBelow(ws, j) <= |assocs|
    && Table(ws, assocs, j) && BlankFrom(assocs, cnt)
  }

  lemma {:induction false} SlotsGrow(ws: seq<Widget>, j: nat, k: nat)
    requires j <= k
    ensures SlotsBelow(ws, j) <= SlotsBelow(ws, k)
    decreases k
  {
    if j < k {
      SlotsGrow(ws, j, k - 1);
    }
  }

  /** A shared association has been filled in (or had no pins). */
  lemma FilledShared(ws: seq<Widget>, before: seq<Assoc>, after: seq<Assoc>, j: nat, next: nat, cnt: nat, cnt': nat)
    requires Filled(ws, before, j, cnt) && j < LAST && next == j + 1 && cnt < |before| == |after|
    requires cnt' == cnt + if PinCount(ws, j, 0, |ws|) > 0 then 1 else 0
    requires cnt' > cnt ==> after[cnt] == FinalSlot(ws, j)
    requires cnt' == cnt ==> after[cnt] == BLANK
    requires forall a :: 0 <= a < |before| && a != cnt ==> after[a] == before[a]
    ensures Filled(ws, after, next, cnt')
  {
    SlotsGrow(ws, next, LAST + 1);
    forall k: nat | 1 <= k < next && k < LAST ensures SharedAt(ws, after, k) {
      if k < j {
        assert SharedAt(ws, before, k);
        SlotsGrow(ws, k + 1, j);
      }
    }
    forall a | 0 <= a < |after| && cnt' <= a ensures IsBlank(after[a]) {
      assert IsBlank(before[a]);
    }
  }

  /** The early end of the loop: nothing is left for the later associations. */
  lemma {:induction false} FilledEarly(ws: seq<Widget>, assocs: seq<Assoc>, j: nat)
    requires Filled(ws, assocs, j, |assocs|) && j <= LAST + 1
    ensures Table(ws, assocs, LAST + 1)
    decreases LAST + 1 - j
  {
    if j <= LAST {
      SlotsGrow(ws, j + 1, LAST + 1);
      NoneLeft(ws, j);
      FilledEarly(ws, assocs, j + 1);
    }
  }

  lemma NoneLeft(ws: seq<Widget>, j: nat)
    ensures PinCount(ws, j, 0, |ws|) == 0 ==> forall n :: !InAssoc(ws, j, n)
  {
    forall n | InAssoc(ws, j, n) ensures PinCount(ws, j, 0, |ws|) > 0 {
      PinCountGrows(ws, j, n + 1, |ws|);
      assert PinCount(ws, j, 0, n + 1) == PinCount(ws, j, 0, n) + 1;
    }
  }

  /** audioAssociationParse.  It answers false, and leaves no table, when there
      are no associations or more than fifty; the count is kept in any case.
      Otherwise the counting pass agrees with the filling pass. */
  method AudioAssociationParse(fg: FunctionGroup) returns (ok: bool, numAssocs: nat)
    requires fg.ValidWidgets()
    modifies fg
    ensures numAssocs == SlotsBelow(fg.widgets[..], LAST + 1) && (ok <==> 1 <= numAssocs <= 50)
    ensures ok ==> fresh(fg.assocs) && Table(fg.widgets[..], fg.assocs[..], LAST + 1)
    ensures !ok ==> fg.assocs == old(fg.assocs)
  {
    ghost var ws := fg.widgets[..];
    numAssocs := CountAssociations(fg);
    if numAssocs < 1 || numAssocs > MAX_ASSOCS {
      return false, numAssocs;
    }
    var assocs := new Assoc[numAssocs](_ => BLANK);
    var j: nat, cnt: nat := 1, 0;
    while j <= LAST && cnt < numAssocs
      invariant Filled(ws, assocs[..], j, cnt)
    {
      ghost var before, k, c := assocs[..], j, cnt;
      if j == LAST {
        var overflow;
        cnt, overflow := FillSingles(fg, assocs, cnt);
        j := j + 1;
        FilledSingles(ws, before, assocs[..], c);
      } else {
        cnt := FillShared(fg, assocs, cnt, j);
        j := j + 1;
        FilledShared(ws, before, assocs[..], k, j, c, cnt);
      }
    }
    FilledEarly(ws, assocs[..], j);
    fg.assocs := assocs;
    return true, numAssocs;
  }

  lemma FilledSingles(ws: seq<Widget>, before: seq<Assoc>, after: seq<Assoc>, cnt: nat)
    requires Filled(ws, before, LAST, cnt) && |after| == |before| == cnt + PinCount(ws, LAST, 0, |ws|)
    requires Singles(ws, after, cnt, |ws|)
    requires forall a :: 0 <= a < cnt ==> after[a] == before[a]
    ensures Filled(ws, after, LAST + 1, |after|)
  {
    forall k: nat | 1 <= k < LAST ensures SharedAt(ws, after, k) {
      assert SharedAt(ws, before, k);
      SlotsGrow(ws, k + 1, LAST);
    }
    forall n ensures SingleAt(ws, after, cnt, n) {
      if n < |ws| {
        assert SingleAt(ws, after, cnt, n);
      }
    }
  }
}
