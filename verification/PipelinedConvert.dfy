/** The software-pipelined loops of tranc/PCMBlitterLib.h: every stage of one
    sample runs beside other stages of its neighbours, and the result is the
    plain loop's. */
module PipelinedConvert {

  /** The stages of TFloatToIntBlitter: load, multiply and round, FloatToInt,
      and shift and store. */
  datatype FloatStages<!R, !F, !I, !O> = FloatStages(load: R -> F, scale: F -> F, quantise: F -> I, store: I -> O)
  {
    function Apply(x: R): O { store(quantise(scale(load(x)))) }
  }

  /** The stages of TIntToFloatBlitter: load, convert, scale, store. */
  datatype IntStages<!R, !I, !F, !O> = IntStages(load: R -> I, convert: I -> F, scale: F -> F, store: F -> O)
  {
    function Apply(x: R): O { store(scale(convert(load(x)))) }
  }

  /** The first n samples are converted one by one, the rest is as before. */
  ghost predicate Mapped<R(!new), O>(f: R -> O, src: seq<R>, before: seq<O>, after: seq<O>, n: nat)
  {
    && n <= |src| && n <= |after| == |before|
    && (forall k :: 0 <= k < n ==> after[k] == f(src[k]))
    && (forall k :: n <= k < |after| ==> after[k] == before[k])
  }

  /** TFloatToIntBlitter::Convert. */
  method FloatToInt<R(!new), F, I, O>(st: FloatStages<R, F, I, O>, src: array<R>, dest: array<O>, n: nat)
    requires (src as object) != dest && n <= src.Length && n <= dest.Length
    modifies dest
    ensures Mapped((x: R) => st.Apply(x), src[..], old(dest[..]), dest[..], n)
  {
    ghost var before := dest[..];
    ghost var f := (x: R) => st.Apply(x);
    var s, d, nSamples := 0, 0, n;
    if nSamples >= 8 {
      var f1 := st.load(src[0]);
      var f2 := st.load(src[1]);
      f1 := st.scale(f1);
      var f3 := st.load(src[2]);
      f2 := st.scale(f2);
      var i1 := st.quantise(f1);
      s := 3;
      nSamples := nSamples - 4;
      var count := nSamples / 4;
      nSamples := nSamples % 4;
      while count > 0
        invariant 0 <= count && s == d + 3 && d + 4 * count + 4 + nSamples == n
        invariant i1 == st.quantise(st.scale(st.load(src[d]))) && f2 == st.scale(st.load(src[d + 1]))
        invariant f3 == st.load(src[d + 2])
        invariant Mapped(f, src[..], before, dest[..], d)
      {
        i1, f2, f3 := FloatCycle(st, src, dest, s, d, i1, f2, f3, before);
        s := s + 4;
        d := d + 4;
        count := count - 1;
      }
      FloatDrain(st, src, dest, s, d, i1, f2, f3, before);
      s := s + 1;
      d := d + 4;
    }
    while nSamples > 0
      invariant 0 <= nSamples && s == d && d + nSamples == n
      invariant Mapped(f, src[..], before, dest[..], d)
    {
      var i1 := st.quantise(st.scale(st.load(src[s])));
      dest[d] := st.store(i1);
      s := s + 1;
      d := d + 1;
      nSamples := nSamples - 1;
    }
  }

  /** The last turn: stores samples d .. d + 3 and starts no more. */
  method FloatDrain<R(!new), F, I, O>(st: FloatStages<R, F, I, O>, src: array<R>, dest: array<O>, s: nat, d: nat, i1: I,
                                      f2: F, a3: F, ghost before: seq<O>)
    requires (src as object) != dest && s == d + 3 && s + 1 <= src.Length && d + 4 <= dest.Length
    requires i1 == st.quantise(st.scale(st.load(src[d]))) && f2 == st.scale(st.load(src[d + 1]))
    requires a3 == st.load(src[d + 2])
    requires Mapped((x: R) => st.Apply(x), src[..], before, dest[..], d)
    modifies dest
    ensures Mapped((x: R) => st.Apply(x), src[..], before, dest[..], d + 4)
  {
    var f3 := a3;
    var f4 := st.load(src[s]);
    f3 := st.scale(f3);
    var i2 := st.quantise(f2);
    dest[d] := st.store(i1);
    f4 := st.scale(f4);
    var i3 := st.quantise(f3);
    dest[d + 1] := st.store(i2);
    var i4 := st.quantise(f4);
    dest[d + 2] := st.store(i3);
    dest[d + 3] := st.store(i4);
  }

  /** One turn of the pipelined loop: stores samples d .. d + 3 and starts the
      three after them. */
  method FloatCycle<R(!new), F, I, O>(st: FloatStages<R, F, I, O>, src: array<R>, dest: array<O>, s: nat, d: nat, a1: I,
                                      a2: F, a3: F, ghost before: seq<O>) returns (i1: I, f2: F, f3: F)
    requires (src as object) != dest && s == d + 3 && s + 4 <= src.Length && d + 4 <= dest.Length
    requires a1 == st.quantise(st.scale(st.load(src[d]))) && a2 == st.scale(st.load(src[d + 1]))
    requires a3 == st.load(src[d + 2])
    requires Mapped((x: R) => st.Apply(x), src[..], before, dest[..], d)
    modifies dest
    ensures i1 == st.quantise(st.scale(st.load(src[d + 4]))) && f2 == st.scale(st.load(src[d + 5]))
    ensures f3 == st.load(src[d + 6])
    ensures Mapped((x: R) => st.Apply(x), src[..], before, dest[..], d + 4)
  {
    i1, f2, f3 := a1, a2, a3;
    var f4 := st.load(src[s]);
    f3 := st.scale(f3);
    var i2 := st.quantise(f2);
    dest[d] := st.store(i1);

    var f1 := st.load(src[s + 1]);
    f4 := st.scale(f4);
    var i3 := st.quantise(f3);
    dest[d + 1] := st.store(i2);

    f2 := st.load(src[s + 2]);
    f1 := st.scale(f1);
    var i4 := st.quantise(f4);
    dest[d + 2] := st.store(i3);

    f3 := st.load(src[s + 3]);
    f2 := st.scale(f2);
    i1 := st.quantise(f1);
    dest[d + 3] := st.store(i4);
  }

  /** TIntToFloatBlitter::Convert. */
  method IntToFloat<R(!new), I, F, O>(st: IntStages<R, I, F, O>, src: array<R>, dest: array<O>, n: nat)
    requires (src as object) != dest && n <= src.Length && n <= dest.Length
    modifies dest
    ensures Mapped((x: R) => st.Apply(x), src[..], old(dest[..]), dest[..], n)
  {
    ghost var before := dest[..];
    ghost var f := (x: R) => st.Apply(x);
    var s, d, count := 0, 0, n;
    if count >= 4 {
      var i0 := st.load(src[0]);
      var i1 := st.load(src[1]);
      var f0 := st.convert(i0);
      var i2 := st.load(src[2]);
      var f1 := st.convert(i1);
      f0 := st.scale(f0);
      var i3 := st.load(src[3]);
      var f2 := st.convert(i2);
      f1 := st.scale(f1);
      dest[0] := st.store(f0);
      s, d := 4, 1;
      count := count - 4;
      var loopCount := count / 4;
      count := count - 4 * loopCount;
      while loopCount > 0
        invariant 0 <= loopCount && 0 <= count && s == d + 3 && s + 4 * loopCount + count == n && d >= 1
        invariant f1 == st.scale(st.convert(st.load(src[d]))) && f2 == st.convert(st.load(src[d + 1]))
        invariant i3 == st.load(src[d + 2])
        invariant Mapped(f, src[..], before, dest[..], d)
      {
        f1, f2, i3 := IntCycle(st, src, dest, s, d, f1, f2, i3, before);
        s := s + 4;
        d := d + 4;
        loopCount := loopCount - 1;
      }
      var f3 := st.convert(i3);
      f2 := st.scale(f2);
      dest[d] := st.store(f1);
      f3 := st.scale(f3);
      dest[d + 1] := st.store(f2);
      dest[d + 2] := st.store(f3);
      d := d + 3;
    }
    while count > 0
      invariant 0 <= count && s == d && d + count == n
      invariant Mapped(f, src[..], before, dest[..], d)
    {
      var f0 := st.scale(st.convert(st.load(src[s])));
      dest[d] := st.store(f0);
      s := s + 1;
      d := d + 1;
      count := count - 1;
    }
  }

  /** One turn: stores samples d .. d + 3 and starts the three after them. */
  method IntCycle<R(!new), I, F, O>(st: IntStages<R, I, F, O>, src: array<R>, dest: array<O>, s: nat, d: nat, a1: F,
                                    a2: F, a3: I, ghost before: seq<O>) returns (f1: F, f2: F, i3: I)
    requires (src as object) != dest && s == d + 3 && s + 4 <= src.Length && d + 4 <= dest.Length
    requires a1 == st.scale(st.convert(st.load(src[d]))) && a2 == st.convert(st.load(src[d + 1]))
    requires a3 == st.load(src[d + 2])
    requires Mapped((x: R) => st.Apply(x), src[..], before, dest[..], d)
    modifies dest
    ensures f1 == st.scale(st.convert(st.load(src[d + 4]))) && f2 == st.convert(st.load(src[d + 5]))
    ensures i3 == st.load(src[d + 6])
    ensures Mapped((x: R) => st.Apply(x), src[..], before, dest[..], d + 4)
  {
    f1, f2, i3 := a1, a2, a3;
    // Cycle A
    var i0 := st.load(src[s]);
    var f3 := st.convert(i3);
    f2 := st.scale(f2);
    dest[d] := st.store(f1);
    // Cycle B
    var i1 := st.load(src[s + 1]);
    var f0 := st.convert(i0);
    f3 := st.scale(f3);
    dest[d + 1] := st.store(f2);
    // Cycle C
    var i2 := st.load(src[s + 2]);
    f1 := st.convert(i1);
    f0 := st.scale(f0);
    dest[d + 2] := st.store(f3);
    // Cycle D
    i3 := st.load(src[s + 3]);
    f2 := st.convert(i2);
    f1 := st.scale(f1);
    dest[d + 3] := st.store(f0);
  }
}
