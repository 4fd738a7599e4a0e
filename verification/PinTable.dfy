/** The generated pin table: tools/gen_pinconfigs.py flattens the layouts into
    one array of pins and a sorted index, the driver binary-searches the index
    and scans a slice. */
module PinTable {
  import opened LayoutEditor
  import opened PinVerbs

  /** A layout of the property list: its key and its configuration data. */
  datatype Layout = Layout(codec: nat, layout: nat, data: seq<nat>)

  /** A layout whose data have been parsed. */
  datatype Item = Item(codec: nat, layout: nat, pins: seq<Pin>)

  /** An index entry: key, and where the pins of the layout lie. */
  datatype IndexEntry = IndexEntry(codec: nat, layout: nat, start: nat, count: nat)

  /** The pins parse_verbs yields for a layout. */
  function Parsed(l: Layout): Item
  {
    Item(l.codec, l.layout, if |l.data| % 4 == 0 then PinsIn(WordsOf(l.data)) else [])
  }

  method ParseLayout(l: Layout) returns (item: Item)
    ensures IsParsed(l, item)
  {
    var pins, extras := ParseVerbs(l.data);
    item := Item(l.codec, l.layout, pins);
  }

  method ParseLayouts(layouts: seq<Layout>) returns (items: seq<Item>)
    ensures AllParsed(layouts, items, |layouts|)
  {
    items := [];
    var i := 0;
    while i < |layouts|
      invariant 0 <= i <= |layouts| && AllParsed(layouts, items, i)
    {
      ghost var k, before := i, items;
      var item := ParseLayout(layouts[i]);
      items := items + [item];
      i := i + 1;
      AllParsedNext(layouts, before, item, k, i);
    }
  }

  lemma AllParsedNext(layouts: seq<Layout>, items: seq<Item>, item: Item, n: nat, next: nat)
    requires n < |layouts| && next == n + 1 && AllParsed(layouts, items, n) && IsParsed(layouts[n], item)
    ensures AllParsed(layouts, items + [item], next)
  {
    forall k | 0 <= k < next ensures IsParsed(layouts[k], (items + [item])[k]) {
      if k < n {
        assert (items + [item])[k] == items[k];
      }
    }
  }

  ghost predicate AllParsed(layouts: seq<Layout>, items: seq<Item>, n: nat)
  {
    |items| == n <= |layouts| && forall k :: 0 <= k < n ==> IsParsed(layouts[k], items[k])
  }

  ghost predicate IsParsed(l: Layout, item: Item)
  {
    item == Parsed(l)
  }

  // ----- Flattening -----

  function Start(items: seq<Item>, i: nat): nat
    requires i <= |items|
  {
    if i == 0 then 0 else Start(items, i - 1) + |items[i - 1].pins|
  }

  /** Pins and index entries of the items below n. */
  ghost predicate FlattenedTo(items: seq<Item>, entries: seq<IndexEntry>, pins: seq<Pin>, n: nat)
  {
    && n <= |items| && |entries| == n && |pins| == Start(items, n)
    && forall i :: 0 <= i < n ==> EntryOf(items, entries[i], pins, i)
  }

  /** The entry has the key of item i and names its pins. */
  ghost predicate EntryOf(items: seq<Item>, e: IndexEntry, pins: seq<Pin>, i: nat)
    requires i < |items|
  {
    && e.codec == items[i].codec && e.layout == items[i].layout
    && e.count == |items[i].pins| && e.start + e.count <= |pins|
    && pins[e.start..e.start + e.count] == items[i].pins
  }

  lemma FlattenedNext(items: seq<Item>, entries: seq<IndexEntry>, pins: seq<Pin>, n: nat, more: seq<Pin>, next: nat)
    requires n < |items| && next == n + 1 && FlattenedTo(items, entries, pins, n) && more == items[n].pins
    ensures FlattenedTo(items, entries + [IndexEntry(items[n].codec, items[n].layout, |pins|, |more|)], pins + more,
                        next)
  {
    var entries' := entries + [IndexEntry(items[n].codec, items[n].layout, |pins|, |more|)];
    forall i: nat | i < next ensures EntryOf(items, entries'[i], pins + more, i) {
      if i < n {
        assert EntryOf(items, entries[i], pins, i);
        var from, to := entries[i].start, entries[i].start + entries[i].count;
        assert (pins + more)[from..to] == pins[from..to];
      } else {
        assert (pins + more)[|pins|..|pins| + |more|] == more;
      }
    }
  }

  /** The loop of main over the layouts. */
  method Flatten(items: seq<Item>) returns (entries: seq<IndexEntry>, pins: seq<Pin>)
    ensures FlattenedTo(items, entries, pins, |items|)
  {
    entries, pins := [], [];
    var i := 0;
    while i < |items|
      invariant 0 <= i <= |items| && FlattenedTo(items, entries, pins, i)
    {
      ghost var k, entries0, pins0 := i, entries, pins;
      var found := items[i].pins;
      entries := entries + [IndexEntry(items[i].codec, items[i].layout, |pins|, |found|)];
      pins := pins + found;
      i := i + 1;
      FlattenedNext(items, entries0, pins0, k, found, i);
    }
  }

  // ----- Sorting by key -----

  predicate KeyLess(c1: nat, l1: nat, c2: nat, l2: nat)
  {
    c1 < c2 || (c1 == c2 && l1 < l2)
  }

  predicate Before(e: IndexEntry, f: IndexEntry)
  {
    KeyLess(e.codec, e.layout, f.codec, f.layout)
  }

  predicate Sorted(entries: seq<IndexEntry>)
  {
    forall i, j :: 0 <= i < j < |entries| ==> !Before(entries[j], entries[i])
  }

  function Insert(s: seq<IndexEntry>, e: IndexEntry): seq<IndexEntry>
  {
    if s == [] || !Before(e, s[|s| - 1]) then s + [e] else Insert(s[..|s| - 1], e) + [s[|s| - 1]]
  }

  /** The stable sort by codec and layout. */
  function SortByKey(s: seq<IndexEntry>): seq<IndexEntry>
  {
    if s == [] then [] else Insert(SortByKey(s[..|s| - 1]), s[|s| - 1])
  }

  lemma {:induction false} InsertSorts(s: seq<IndexEntry>, e: IndexEntry)
    requires Sorted(s)
    ensures Sorted(Insert(s, e)) && multiset(Insert(s, e)) == multiset(s) + multiset{e}
  {
    if s != [] && Before(e, s[|s| - 1]) {
      var front, last := s[..|s| - 1], s[|s| - 1];
      InsertSorts(front, e);
      assert s == front + [last];
      var r := Insert(front, e);
      forall i | 0 <= i < |r| ensures !Before(last, r[i]) {
        assert r[i] in multiset(r);
        assert r[i] == e || r[i] in front;
      }
    }
  }

  lemma {:induction false} SortSorts(s: seq<IndexEntry>)
    ensures Sorted(SortByKey(s)) && multiset(SortByKey(s)) == multiset(s)
  {
    if s != [] {
      SortSorts(s[..|s| - 1]);
      InsertSorts(SortByKey(s[..|s| - 1]), s[|s| - 1]);
      assert s == s[..|s| - 1] + [s[|s| - 1]];
    }
  }

  // ----- alcLookupPinConfig -----

  predicate HasKey(e: IndexEntry, codec: nat, layout: nat)
  {
    e.codec == codec && e.layout == layout
  }

  /** Binary search; -1 for NULL. */
  method AlcLookupPinConfig(entries: seq<IndexEntry>, codec: nat, layout: nat) returns (r: int)
    requires Sorted(entries)
    ensures r != -1 ==> 0 <= r < |entries| && HasKey(entries[r], codec, layout)
    ensures r == -1 ==> forall i :: 0 <= i < |entries| ==> !HasKey(entries[i], codec, layout)
  {
    var lo, hi := 0, |entries| - 1;
    while lo <= hi
      invariant 0 <= lo <= hi + 1 <= |entries|
      invariant forall i :: 0 <= i < lo ==> KeyLess(entries[i].codec, entries[i].layout, codec, layout)
      invariant forall i :: hi < i < |entries| ==> KeyLess(codec, layout, entries[i].codec, entries[i].layout)
    {
      var mid := (lo + hi) / 2;
      var e := entries[mid];
      assert forall i :: 0 <= i < mid ==> !Before(e, entries[i]);
      assert forall i :: mid < i < |entries| ==> !Before(entries[i], e);
      if e.codec < codec {
        lo := mid + 1;
      } else if e.codec > codec {
        hi := mid - 1;
      } else if e.layout < layout {
        lo := mid + 1;
      } else if e.layout > layout {
        hi := mid - 1;
      } else {
        return mid;
      }
    }
    return -1;
  }

  // ----- The map the table stands for -----

  /** The configuration of the first pin with that node id. */
  function FirstPin(pins: seq<Pin>, nid: nat): Param
  {
    if pins == [] then Absent
    else if pins[0].nid == nid then Present(pins[0].config)
    else FirstPin(pins[1..], nid)
  }

  predicate ItemHasKey(items: seq<Item>, i: int, codec: nat, layout: nat)
  {
    0 <= i < |items| && items[i].codec == codec && items[i].layout == layout
  }

  /** What the layouts say about a pin: nothing if no layout has the key or the
      layout does not configure the pin, else its configuration. */
  ghost predicate Says(items: seq<Item>, codec: nat, layout: nat, nid: nat, answer: Param)
  {
    if exists i :: ItemHasKey(items, i, codec, layout) then
      forall i :: ItemHasKey(items, i, codec, layout) ==> answer == FirstPin(items[i].pins, nid)
    else answer == Absent
  }

  predicate UniqueKeys(items: seq<Item>)
  {
    forall i, j :: 0 <= i < j < |items| ==> !(items[i].codec == items[j].codec && items[i].layout == items[j].layout)
  }

  /** Entry r is that of some item. */
  ghost predicate Named(items: seq<Item>, entries: seq<IndexEntry>, pins: seq<Pin>, r: nat)
  {
    r < |entries| ==> exists i: nat :: i < |items| && EntryOf(items, entries[r], pins, i)
  }

  /** Item i has an entry. */
  ghost predicate Indexed(items: seq<Item>, entries: seq<IndexEntry>, i: nat)
  {
    i < |items| ==> exists r :: 0 <= r < |entries| && HasKey(entries[r], items[i].codec, items[i].layout)
  }

  /** The generated source: the sorted index and the pins. */
  ghost predicate TableOf(items: seq<Item>, entries: seq<IndexEntry>, pins: seq<Pin>)
  {
    && Sorted(entries)
    && (forall r: nat :: Named(items, entries, pins, r))
    && (forall i: nat :: Indexed(items, entries, i))
  }

  lemma SameMembers(s: seq<IndexEntry>, t: seq<IndexEntry>, r: nat) returns (i: nat)
    requires multiset(s) == multiset(t) && r < |s|
    ensures i < |t| && t[i] == s[r]
  {
    assert s[r] in multiset(s);
    i :| 0 <= i < |t| && t[i] == s[r];
  }

  lemma SortedTable(items: seq<Item>, entries: seq<IndexEntry>, pins: seq<Pin>)
    requires FlattenedTo(items, entries, pins, |items|)
    ensures TableOf(items, SortByKey(entries), pins)
  {
    var sorted := SortByKey(entries);
    SortSorts(entries);
    forall r: nat ensures Named(items, sorted, pins, r) {
      if r < |sorted| {
        var i := SameMembers(sorted, entries, r);
        assert EntryOf(items, entries[i], pins, i);
      }
    }
    forall i: nat ensures Indexed(items, sorted, i) {
      if i < |items| {
        assert EntryOf(items, entries[i], pins, i);
        var r := SameMembers(entries, sorted, i);
        assert HasKey(sorted[r], items[i].codec, items[i].layout);
      }
    }
  }

  /** gen_pinconfigs.py: flatten, then sort the index. */
  method Generate(items: seq<Item>) returns (entries: seq<IndexEntry>, pins: seq<Pin>)
    ensures TableOf(items, entries, pins) && |pins| == Start(items, |items|)
  {
    entries, pins := Flatten(items);
    SortedTable(items, entries, pins);
    entries := SortByKey(entries);
  }

  /** The table part of widgetPinGetConfig: the answer of the table for a node,
      Absent where the codec is asked instead.  The struct has 16 bits for a
      start and 8 for a count. */
  method TablePinConfig(entries: seq<IndexEntry>, pins: seq<Pin>, codec: nat, layout: nat, nid: nat,
                        ghost items: seq<Item>)
    returns (answer: Param)
    requires TableOf(items, entries, pins) && UniqueKeys(items)
    requires forall r :: 0 <= r < |entries| ==> entries[r].start < 0x1_0000 && entries[r].count < 0x100
    ensures layout != 0 ==> Says(items, codec, layout, nid % 0x100, answer)
    ensures layout == 0 ==> answer == Absent
  {
    if layout == 0 {
      return Absent;
    }
    var r := AlcLookupPinConfig(entries, codec, layout);
    if r == -1 {
      KeyAbsent(items, entries, pins, codec, layout);
      return Absent;
    }
    assert Named(items, entries, pins, r);
    ghost var i: nat :| i < |items| && EntryOf(items, entries[r], pins, i);
    answer := ScanSlice(pins, entries[r], nid % 0x100);
    assert ItemHasKey(items, i, codec, layout);
  }

  lemma KeyAbsent(items: seq<Item>, entries: seq<IndexEntry>, pins: seq<Pin>, codec: nat, layout: nat)
    requires TableOf(items, entries, pins)
    requires forall i :: 0 <= i < |entries| ==> !HasKey(entries[i], codec, layout)
    ensures forall i :: !ItemHasKey(items, i, codec, layout)
  {
    forall i ensures !ItemHasKey(items, i, codec, layout) {
      if 0 <= i < |items| {
        assert Indexed(items, entries, i);
        var r :| 0 <= r < |entries| && HasKey(entries[r], items[i].codec, items[i].layout);
      }
    }
  }

  /** The loop over the slice of an entry. */
  method ScanSlice(pins: seq<Pin>, e: IndexEntry, nid: nat) returns (answer: Param)
    requires e.start + e.count <= |pins|
    ensures answer == FirstPin(pins[e.start..e.start + e.count], nid)
  {
    ghost var slice := pins[e.start..e.start + e.count];
    var i := 0;
    while i < e.count
      invariant 0 <= i <= e.count && FirstPin(slice, nid) == FirstPin(slice[i..], nid)
    {
      if pins[e.start + i].nid == nid {
        return Present(pins[e.start + i].config);
      }
      assert slice[i..][1..] == slice[i + 1..];
      i := i + 1;
    }
    return Absent;
  }

  // ----- From the property list to the driver -----

  /** Few enough pins for the fields of the index. */
  predicate FitsTable(items: seq<Item>)
  {
    Start(items, |items|) < 0x1_0000 && forall i :: 0 <= i < |items| ==> |items[i].pins| < 0x100
  }

  lemma Fits(items: seq<Item>, entries: seq<IndexEntry>, pins: seq<Pin>)
    requires TableOf(items, entries, pins) && |pins| == Start(items, |items|) && FitsTable(items)
    ensures forall r :: 0 <= r < |entries| ==> entries[r].start < 0x1_0000 && entries[r].count < 0x100
  {
    forall r | 0 <= r < |entries| ensures entries[r].start < 0x1_0000 && entries[r].count < 0x100 {
      assert Named(items, entries, pins, r);
      var i: nat :| i < |items| && EntryOf(items, entries[r], pins, i);
    }
  }

  /** Layouts of unique keys, parsed, generated and looked up: for every codec,
      layout and node the driver gets what the layouts say. */
  method GenerateAndLookUp(layouts: seq<Layout>, codec: nat, layout: nat, nid: nat)
    returns (answer: Param, items: seq<Item>)
    requires forall i, j :: 0 <= i < j < |layouts| ==>
               !(layouts[i].codec == layouts[j].codec && layouts[i].layout == layouts[j].layout)
    ensures AllParsed(layouts, items, |layouts|)
    ensures layout != 0 && FitsTable(items) ==> Says(items, codec, layout, nid % 0x100, answer)
  {
    items := ParseLayouts(layouts);
    assert UniqueKeys(items) by {
      assert forall k :: 0 <= k < |layouts| ==> IsParsed(layouts[k], items[k]);
    }
    var entries, pins := Generate(items);
    if FitsTable(items) {
      Fits(items, entries, pins);
    }
    if exists r :: 0 <= r < |entries| && !(entries[r].start < 0x1_0000 && entries[r].count < 0x100) {
      // The constants do not fit the fields: the generated source is rejected.
      answer := Absent;
    } else {
      answer := TablePinConfig(entries, pins, codec, layout, nid, items);
    }
  }

  /** In a layout without a node twice the first pin is the pin. */
  lemma {:induction false} FirstPinIs(pins: seq<Pin>, nid: nat, pc: nat)
    requires Ascending(pins)
    ensures FirstPin(pins, nid) == Present(pc) <==> HasPin(pins, nid, pc)
  {
    if pins != [] {
      FirstPinIs(pins[1..], nid, pc);
      assert forall i :: 1 <= i < |pins| ==> pins[i] == pins[1..][i - 1];
      if HasPin(pins[1..], nid, pc) {
        var i :| 0 <= i < |pins[1..]| && pins[1..][i].nid == nid && pins[1..][i].config == pc;
        assert pins[i + 1].nid == nid && pins[i + 1].config == pc;
      }
    }
  }
}
