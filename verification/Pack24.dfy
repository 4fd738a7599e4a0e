/** The 24-bit kernels of tranc/PCMBlitterLib.cpp: four samples in three words,
    and the rest byte by byte, in native and in swapped order. */
module Pack24 {

  type Byte = b: bv32 | b < 0x100

  /** Byte k of a word, lowest first. */
  function B(w: bv32, k: nat): Byte
    requires k < 4
  {
    if k == 0 then w & 0xFF else if k == 1 then (w >> 8) & 0xFF
    else if k == 2 then (w >> 16) & 0xFF else (w >> 24) & 0xFF
  }

  // ----- Packing four samples into three words -----

  datatype Words = Words(w0: bv32, w1: bv32, w2: bv32)

  function NativeWords(i1: bv32, i2: bv32, i3: bv32, i4: bv32): Words
  {
    Words((i1 & 0xFF_FFFF) | ((i2 & 0xFF) << 24),
          (i3 << 16) | ((i2 >> 8) & 0xFFFF),
          ((i3 >> 16) & 0xFF) | ((i4 & 0xFF_FFFF) << 8))
  }

  function SwapWords(i1: bv32, i2: bv32, i3: bv32, i4: bv32): Words
  {
    Words(((i2 & 0x00FF_0000) << 8) | ((i1 & 0xFF) << 16) | (i1 & 0xFF00) | ((i1 & 0x00FF_0000) >> 16),
          ((i3 & 0xFF00) << 16) | (i3 & 0x00FF_0000) | ((i2 & 0xFF) << 8) | ((i2 & 0xFF00) >> 8),
          ((i4 & 0xFF) << 24) | ((i4 & 0xFF00) << 8) | ((i4 & 0x00FF_0000) >> 8) | (i3 & 0xFF))
  }

  /** The words hold the samples, three bytes each, in order. */
  predicate Holds(w: Words, i1: bv32, i2: bv32, i3: bv32, i4: bv32, b0: nat, b1: nat, b2: nat)
    requires b0 < 3 && b1 < 3 && b2 < 3
  {
    && B(w.w0, 0) == B(i1, b0) && B(w.w0, 1) == B(i1, b1) && B(w.w0, 2) == B(i1, b2) && B(w.w0, 3) == B(i2, b0)
    && B(w.w1, 0) == B(i2, b1) && B(w.w1, 1) == B(i2, b2) && B(w.w1, 2) == B(i3, b0) && B(w.w1, 3) == B(i3, b1)
    && B(w.w2, 0) == B(i3, b2) && B(w.w2, 1) == B(i4, b0) && B(w.w2, 2) == B(i4, b1) && B(w.w2, 3) == B(i4, b2)
  }

  lemma NativeHolds(i1: bv32, i2: bv32, i3: bv32, i4: bv32)
    ensures Holds(NativeWords(i1, i2, i3, i4), i1, i2, i3, i4, 0, 1, 2)
  {
  }

  lemma SwapHolds(i1: bv32, i2: bv32, i3: bv32, i4: bv32)
    ensures Holds(SwapWords(i1, i2, i3, i4), i1, i2, i3, i4, 2, 1, 0)
  {
  }

  // ----- Unpacking three words into four samples -----

  /** A sample from its bytes, in the upper three bytes of a word. */
  function Sample(low: Byte, mid: Byte, high: Byte): bv32
  {
    (low << 8) | (mid << 16) | (high << 24)
  }

  function WordOf(b0: Byte, b1: Byte, b2: Byte, b3: Byte): bv32
  {
    b0 | (b1 << 8) | (b2 << 16) | (b3 << 24)
  }

  datatype Samples = Samples(s1: bv32, s2: bv32, s3: bv32, s4: bv32)

  function NativeSamples(lv1: bv32, lv2: bv32, lv3: bv32): Samples
  {
    Samples(lv1 << 8,
            (lv2 << 16) | ((lv1 & 0xFF00_0000) >> 16),
            (lv3 << 24) | ((lv2 & 0xFFFF_0000) >> 8),
            lv3 & 0xFFFF_FF00)
  }

  function SwapSamples(lv1: bv32, lv2: bv32, lv3: bv32): Samples
  {
    Samples((lv1 << 24) | ((lv1 & 0xFF00) << 8) | ((lv1 & 0x00FF_0000) >> 8),
            (lv1 & 0xFF00_0000) | ((lv2 & 0xFF) << 16) | (lv2 & 0xFF00),
            ((lv2 & 0x00FF_0000) << 8) | ((lv2 & 0xFF00_0000) >> 8) | ((lv3 & 0xFF) << 8),
            ((lv3 & 0xFF00) << 16) | (lv3 & 0x00FF_0000) | ((lv3 & 0xFF00_0000) >> 16))
  }

  lemma NativeUnpacks(b0: Byte, b1: Byte, b2: Byte, b3: Byte, b4: Byte, b5: Byte, b6: Byte, b7: Byte, b8: Byte,
                      b9: Byte, b10: Byte, b11: Byte)
    ensures NativeSamples(WordOf(b0, b1, b2, b3), WordOf(b4, b5, b6, b7), WordOf(b8, b9, b10, b11))
            == Samples(Sample(b0, b1, b2), Sample(b3, b4, b5), Sample(b6, b7, b8), Sample(b9, b10, b11))
  {
  }

  lemma SwapUnpacks(b0: Byte, b1: Byte, b2: Byte, b3: Byte, b4: Byte, b5: Byte, b6: Byte, b7: Byte, b8: Byte, b9: Byte,
                    b10: Byte, b11: Byte)
    ensures SwapSamples(WordOf(b0, b1, b2, b3), WordOf(b4, b5, b6, b7), WordOf(b8, b9, b10, b11))
            == Samples(Sample(b2, b1, b0), Sample(b5, b4, b3), Sample(b8, b7, b6), Sample(b11, b10, b9))
  {
  }

  /** Unpacking undoes packing: a code comes back in the upper bytes. */
  lemma SampleOfBytes(i: bv32)
    ensures Sample(B(i, 0), B(i, 1), B(i, 2)) == i << 8
  {
  }

  lemma BytesOfSample(low: Byte, mid: Byte, high: Byte)
    ensures var i := Sample(low, mid, high) >> 8; B(i, 0) == low && B(i, 1) == mid && B(i, 2) == high
    ensures Sample(low, mid, high) == Sample(high, mid, low) <==> low == high
  {
  }

  // ----- Float32ToNativeInt24, Float32ToSwapInt24 -----

  type Triple = t: seq<Byte> | |t| == 3 witness [0, 0, 0]

  /** The bytes of one code: low first, or high first when swapped. */
  function Form(swap: bool, i: bv32): Triple
  {
    if swap then [B(i, 2), B(i, 1), B(i, 0)] else [B(i, 0), B(i, 1), B(i, 2)]
  }

  /** The bytes of three words in memory. */
  function BytesOf(w: Words): (b: seq<Byte>)
    ensures |b| == 12
  {
    [B(w.w0, 0), B(w.w0, 1), B(w.w0, 2), B(w.w0, 3),
     B(w.w1, 0), B(w.w1, 1), B(w.w1, 2), B(w.w1, 3),
     B(w.w2, 0), B(w.w2, 1), B(w.w2, 2), B(w.w2, 3)]
  }

  function PackFour(swap: bool, i1: bv32, i2: bv32, i3: bv32, i4: bv32): Words
  {
    if swap then SwapWords(i1, i2, i3, i4) else NativeWords(i1, i2, i3, i4)
  }

  lemma TwelveBytes(a: Triple, b: Triple, c: Triple, d: Triple)
    ensures a + b + c + d ==
            [a[0], a[1], a[2], b[0], b[1], b[2], c[0], c[1], c[2], d[0], d[1], d[2]]
  {
  }

  /** The three words in memory are the four samples, three bytes each. */
  lemma FourPacked(swap: bool, i1: bv32, i2: bv32, i3: bv32, i4: bv32)
    ensures BytesOf(PackFour(swap, i1, i2, i3, i4)) == Form(swap, i1) + Form(swap, i2) + Form(swap, i3) + Form(swap, i4)
  {
    if swap {
      SwapHolds(i1, i2, i3, i4);
    } else {
      NativeHolds(i1, i2, i3, i4);
    }
    TwelveBytes(Form(swap, i1), Form(swap, i2), Form(swap, i3), Form(swap, i4));
  }

  /** The first n samples lie in the buffer in their three-byte form; the rest
      of it has not been written. */
  ghost predicate Packed<S>(form: S -> Triple, src: seq<S>, before: seq<Byte>, after: seq<Byte>, n: nat)
  {
    && n <= |src| && 3 * n <= |after| == |before|
    && (forall i: nat :: i < n ==> after[3 * i..3 * i + 3] == form(src[i]))
    && after[3 * n..] == before[3 * n..]
  }

  lemma SubSlice(s: seq<Byte>, a: nat, b: nat, c: nat, d: nat)
    requires a <= b <= |s| && c <= d <= b - a
    ensures s[a..b][c..d] == s[a + c..a + d]
  {
    forall k | 0 <= k < d - c ensures s[a..b][c..d][k] == s[a + c..a + d][k] {
    }
  }

  lemma FourMore<S>(form: S -> Triple, src: seq<S>, before: seq<Byte>, mid: seq<Byte>, after: seq<Byte>, j: nat)
    requires Packed(form, src, before, mid, j) && j + 4 <= |src| && 3 * j + 12 <= |mid|
    requires after ==
             mid[..3 * j] + (form(src[j]) + form(src[j + 1]) + form(src[j + 2]) + form(src[j + 3])) + mid[3 * j + 12..]
    ensures Packed(form, src, before, after, j + 4)
  {
    var four := form(src[j]) + form(src[j + 1]) + form(src[j + 2]) + form(src[j + 3]);
    assert after[3 * j..3 * j + 12] == four;
    assert four[0..3] == form(src[j]) && four[3..6] == form(src[j + 1]) && four[6..9] == form(src[j + 2]);
    assert four[9..12] == form(src[j + 3]);
    forall i: nat | i < j + 4 ensures after[3 * i..3 * i + 3] == form(src[i]) {
      if i < j {
        assert after[3 * i..3 * i + 3] == mid[3 * i..3 * i + 3];
      } else {
        SubSlice(after, 3 * j, 3 * j + 12, 3 * (i - j), 3 * (i - j) + 3);
        assert 3 * j + 3 * (i - j) == 3 * i;
      }
    }
    assert after[3 * (j + 4)..] == mid[3 * j..][12..] == before[3 * j..][12..];
  }

  lemma OneMore<S>(form: S -> Triple, src: seq<S>, before: seq<Byte>, mid: seq<Byte>, after: seq<Byte>, j: nat)
    requires Packed(form, src, before, mid, j) && j < |src| && 3 * j + 3 <= |mid|
    requires after == mid[..3 * j] + form(src[j]) + mid[3 * j + 3..]
    ensures Packed(form, src, before, after, j + 1)
  {
    forall i: nat | i < j + 1 ensures after[3 * i..3 * i + 3] == form(src[i]) {
      if i < j {
        assert after[3 * i..3 * i + 3] == mid[3 * i..3 * i + 3];
      }
    }
    assert after[3 * (j + 1)..] == mid[3 * j..][3..] == before[3 * j..][3..];
  }

  /** Writes bytes at p. */
  method StoreBytes(dst: array<Byte>, p: nat, bytes: seq<Byte>)
    requires p + |bytes| <= dst.Length
    modifies dst
    ensures dst[..] == old(dst[..])[..p] + bytes + old(dst[..])[p + |bytes|..]
  {
    forall k | 0 <= k < |bytes| {
      dst[p + k] := bytes[k];
    }
  }

  function FormOf<S>(swap: bool, code: S -> bv32): S -> Triple
  {
    x => Form(swap, code(x))
  }

  /** Four samples in three word stores. */
  method PackWords<S>(swap: bool, code: S -> bv32, src: array<S>, dst: array<Byte>, s: nat, ghost before: seq<Byte>)
    requires (src as object) != dst && s + 4 <= src.Length && 3 * s + 12 <= dst.Length
    requires Packed(FormOf(swap, code), src[..], before, dst[..], s)
    modifies dst
    ensures Packed(FormOf(swap, code), src[..], before, dst[..], s + 4)
  {
    ghost var form, mid := FormOf(swap, code), dst[..];
    var i1, i2, i3, i4 := code(src[s]), code(src[s + 1]), code(src[s + 2]), code(src[s + 3]);
    FourPacked(swap, i1, i2, i3, i4);
    StoreBytes(dst, 3 * s, BytesOf(PackFour(swap, i1, i2, i3, i4)));
    FourMore(form, src[..], before, mid, dst[..], s);
  }

  method PackSample<S>(swap: bool, code: S -> bv32, src: array<S>, dst: array<Byte>, s: nat, ghost before: seq<Byte>)
    requires (src as object) != dst && s < src.Length && 3 * s + 3 <= dst.Length
    requires Packed(FormOf(swap, code), src[..], before, dst[..], s)
    modifies dst
    ensures Packed(FormOf(swap, code), src[..], before, dst[..], s + 1)
  {
    ghost var form, mid := FormOf(swap, code), dst[..];
    var i := code(src[s]);
    StoreBytes(dst, 3 * s, if swap then [B(i, 2), B(i, 1), B(i, 0)] else [B(i, 0), B(i, 1), B(i, 2)]);
    OneMore(form, src[..], before, mid, dst[..], s);
  }

  /** The packing kernels. */
  method Pack<S>(swap: bool, code: S -> bv32, src: array<S>, dst: array<Byte>, n: nat)
    requires (src as object) != dst && n <= src.Length && 3 * n <= dst.Length
    modifies dst
    ensures Packed(FormOf(swap, code), src[..], old(dst[..]), dst[..], n)
  {
    ghost var before := dst[..];
    var s, count := 0, n / 4;
    while count > 0
      invariant 0 <= s && 0 <= count && s + 4 * count <= n
      invariant Packed(FormOf(swap, code), src[..], before, dst[..], s)
    {
      PackWords(swap, code, src, dst, s, before);
      s := s + 4;
      count := count - 1;
    }
    while s < n
      invariant 0 <= s <= n
      invariant Packed(FormOf(swap, code), src[..], before, dst[..], s)
    {
      PackSample(swap, code, src, dst, s, before);
      s := s + 1;
    }
  }

  // ----- NativeInt24ToFloat32, SwapInt24ToFloat32 -----

  /** Sample i of packed bytes. */
  function SampleAt(swap: bool, bytes: seq<Byte>, i: nat): bv32
    requires 3 * i + 3 <= |bytes|
  {
    if swap then Sample(bytes[3 * i + 2], bytes[3 * i + 1], bytes[3 * i])
    else Sample(bytes[3 * i], bytes[3 * i + 1], bytes[3 * i + 2])
  }

  /** How sample i of n is read: the last n % 4 samples of a swapped buffer only
      with the little-endian arm compiled in are read swapped. */
  function ReadAt(swap: bool, littleEndianArm: bool, bytes: seq<Byte>, n: nat, i: nat): bv32
    requires i < n && 3 * n <= |bytes|
  {
    SampleAt(swap && (i < n / 4 * 4 || littleEndianArm), bytes, i)
  }

  ghost predicate Unpacked(swap: bool, arm: bool, bytes: seq<Byte>, before: seq<bv32>, after: seq<bv32>, n: nat, i: nat)
  {
    && i <= n && 3 * n <= |bytes| && n <= |after| == |before|
    && (forall k: nat :: k < i ==> after[k] == ReadAt(swap, arm, bytes, n, k))
    && (forall k :: i <= k < |after| ==> after[k] == before[k])
  }

  function LoadWord(bytes: seq<Byte>, p: nat): bv32
    requires p + 4 <= |bytes|
  {
    WordOf(bytes[p], bytes[p + 1], bytes[p + 2], bytes[p + 3])
  }

  lemma FourSamples(swap: bool, bytes: seq<Byte>, i: nat)
    requires 3 * i + 12 <= |bytes|
    ensures var lv1, lv2, lv3 := LoadWord(bytes, 3 * i), LoadWord(bytes, 3 * i + 4), LoadWord(bytes, 3 * i + 8);
            (if swap then SwapSamples(lv1, lv2, lv3) else NativeSamples(lv1, lv2, lv3))
            == Samples(SampleAt(swap, bytes, i), SampleAt(swap, bytes, i + 1), SampleAt(swap, bytes, i + 2),
                       SampleAt(swap, bytes, i + 3))
  {
    var b := bytes[3 * i..3 * i + 12];
    if swap {
      SwapUnpacks(b[0], b[1], b[2], b[3], b[4], b[5], b[6], b[7], b[8], b[9], b[10], b[11]);
    } else {
      NativeUnpacks(b[0], b[1], b[2], b[3], b[4], b[5], b[6], b[7], b[8], b[9], b[10], b[11]);
    }
  }

  /** Four samples from three word loads. */
  method UnpackWords(swap: bool, src: array<Byte>, i: nat) returns (s: Samples)
    requires 3 * i + 12 <= src.Length
    ensures s == Samples(SampleAt(swap, src[..], i), SampleAt(swap, src[..], i + 1),
                         SampleAt(swap, src[..], i + 2), SampleAt(swap, src[..], i + 3))
  {
    var lv1, lv2, lv3 := LoadWord(src[..], 3 * i), LoadWord(src[..], 3 * i + 4), LoadWord(src[..], 3 * i + 8);
    FourSamples(swap, src[..], i);
    s := if swap then SwapSamples(lv1, lv2, lv3) else NativeSamples(lv1, lv2, lv3);
  }

  /** The swapping kernel's tail has two arms; the other kernel has one. */
  method UnpackSample(swap: bool, littleEndianArm: bool, src: array<Byte>, i: nat) returns (s: bv32)
    requires 3 * i + 3 <= src.Length
    ensures s == SampleAt(swap && littleEndianArm, src[..], i)
  {
    var lv := if swap && littleEndianArm then Joined(src[3 * i + 2], src[3 * i + 1], src[3 * i])
              else Joined(src[3 * i], src[3 * i + 1], src[3 * i + 2]);
    TailSample(src[3 * i], src[3 * i + 1], src[3 * i + 2]);
    s := lv << 8;
  }

  lemma UnpackedNext(swap: bool, arm: bool, bytes: seq<Byte>, before: seq<bv32>, mid: seq<bv32>, s: seq<bv32>, n: nat,
                     i: nat)
    requires Unpacked(swap, arm, bytes, before, mid, n, i) && i + |s| <= n
    requires forall k: nat :: k < |s| ==> s[k] == ReadAt(swap, arm, bytes, n, i + k)
    ensures Unpacked(swap, arm, bytes, before, mid[..i] + s + mid[i + |s|..], n, i + |s|)
  {
    var after := mid[..i] + s + mid[i + |s|..];
    forall k: nat | k < i + |s| ensures after[k] == ReadAt(swap, arm, bytes, n, k) {
      if k >= i {
        assert s[k - i] == ReadAt(swap, arm, bytes, n, i + (k - i));
      }
    }
  }

  /** The unpacking kernels; `littleEndianArm` says which arm of the tail of the
      swapping kernel is compiled in. */
  method Unpack(swap: bool, littleEndianArm: bool, src: array<Byte>, dst: array<bv32>, n: nat)
    requires (src as object) != dst && 3 * n <= src.Length && n <= dst.Length
    modifies dst
    ensures Unpacked(swap, littleEndianArm, src[..], old(dst[..]), dst[..], n, n)
  {
    ghost var before := dst[..];
    var i, count := 0, n / 4;
    while count > 0
      invariant 0 <= i && i + 4 * count == n / 4 * 4
      invariant Unpacked(swap, littleEndianArm, src[..], before, dst[..], n, i)
    {
      UnpackFour(swap, littleEndianArm, src, dst, n, i, before);
      i := i + 4;
      count := count - 1;
    }
    UnpackTail(swap, littleEndianArm, src, dst, n, i, before);
  }

  method UnpackFour(swap: bool, littleEndianArm: bool, src: array<Byte>, dst: array<bv32>, n: nat, i: nat,
                    ghost before: seq<bv32>)
    requires (src as object) != dst && 3 * n <= src.Length && n <= dst.Length && i + 4 <= n / 4 * 4
    requires Unpacked(swap, littleEndianArm, src[..], before, dst[..], n, i)
    modifies dst
    ensures Unpacked(swap, littleEndianArm, src[..], before, dst[..], n, i + 4)
  {
    ghost var mid, bytes := dst[..], src[..];
    var s := UnpackWords(swap, src, i);
    ghost var four := [s.s1, s.s2, s.s3, s.s4];
    dst[i], dst[i + 1], dst[i + 2], dst[i + 3] := s.s1, s.s2, s.s3, s.s4;
    assert dst[..] == mid[..i] + four + mid[i + 4..];
    FourRead(swap, littleEndianArm, bytes, n, i, four);
    UnpackedNext(swap, littleEndianArm, bytes, before, mid, four, n, i);
  }

  lemma FourRead(swap: bool, arm: bool, bytes: seq<Byte>, n: nat, i: nat, four: seq<bv32>)
    requires 3 * n <= |bytes| && i + 4 <= n / 4 * 4
    requires four == [SampleAt(swap, bytes, i), SampleAt(swap, bytes, i + 1), SampleAt(swap, bytes, i + 2),
                      SampleAt(swap, bytes, i + 3)]
    ensures forall k: nat :: k < 4 ==> four[k] == ReadAt(swap, arm, bytes, n, i + k)
  {
  }

  method UnpackTail(swap: bool, littleEndianArm: bool, src: array<Byte>, dst: array<bv32>, n: nat, i0: nat,
                    ghost before: seq<bv32>)
    requires (src as object) != dst && 3 * n <= src.Length && n <= dst.Length && i0 == n / 4 * 4
    requires Unpacked(swap, littleEndianArm, src[..], before, dst[..], n, i0)
    modifies dst
    ensures Unpacked(swap, littleEndianArm, src[..], before, dst[..], n, n)
  {
    var i := i0;
    while i < n
      invariant n / 4 * 4 <= i <= n
      invariant Unpacked(swap, littleEndianArm, src[..], before, dst[..], n, i)
    {
      ghost var mid := dst[..];
      var s := UnpackSample(swap, littleEndianArm, src, i);
      dst[i] := s;
      assert dst[..] == mid[..i] + [s] + mid[i + 1..];
      UnpackedNext(swap, littleEndianArm, src[..], before, mid, [s], n, i);
      i := i + 1;
    }
  }

  function Joined(low: bv32, mid: bv32, high: bv32): bv32
  {
    low | (mid << 8) | (high << 16)
  }

  lemma TailSample(p0: Byte, p1: Byte, p2: Byte)
    ensures Joined(p0, p1, p2) << 8 == Sample(p0, p1, p2)
    ensures Joined(p2, p1, p0) << 8 == Sample(p2, p1, p0)
  {
  }

  // ----- What the kernels guarantee -----

  /** With the little-endian arm, unpacking returns every packed sample in its
      endianness, for every count. */
  lemma RoundTrip<S>(swap: bool, code: S -> bv32, src: seq<S>, before: seq<Byte>, bytes: seq<Byte>, n: nat, i: nat)
    requires Packed(FormOf(swap, code), src, before, bytes, n) && i < n
    ensures ReadAt(swap, true, bytes, n, i) == code(src[i]) << 8
  {
    var t := bytes[3 * i..3 * i + 3];
    assert t == Form(swap, code(src[i]));
    assert t[0] == bytes[3 * i] && t[1] == bytes[3 * i + 1] && t[2] == bytes[3 * i + 2];
    SampleOfBytes(code(src[i]));
  }

  /** A swapped buffer is read right with the arm that does not swap, the one
      tranc/PCMBlitterLib.cpp:14-15 selects on x86, exactly when the bytes of
      its last n % 4 samples read the same both ways. */
  lemma OtherArm(bytes: seq<Byte>, n: nat)
    requires 3 * n <= |bytes|
    ensures (forall i: nat :: i < n ==> ReadAt(true, false, bytes, n, i) == ReadAt(true, true, bytes, n, i)) <==>
            (forall i: nat :: n / 4 * 4 <= i < n ==> bytes[3 * i] == bytes[3 * i + 2])
  {
    forall i: nat | n / 4 * 4 <= i < n
      ensures ReadAt(true, false, bytes, n, i) == ReadAt(true, true, bytes, n, i) <==> bytes[3 * i] == bytes[3 * i + 2]
    {
      BytesOfSample(bytes[3 * i], bytes[3 * i + 1], bytes[3 * i + 2]);
    }
  }

  /** One sample is enough for the other arm to fail. */
  lemma OtherArmFails()
    ensures exists bytes: seq<Byte> ::
              |bytes| == 3 && ReadAt(true, false, bytes, 1, 0) != ReadAt(true, true, bytes, 1, 0)
  {
    var bytes: seq<Byte> := [1, 0, 0];
    BytesOfSample(1, 0, 0);
    assert ReadAt(true, false, bytes, 1, 0) == Sample(1, 0, 0) && ReadAt(true, true, bytes, 1, 0) == Sample(0, 0, 1);
  }
}
