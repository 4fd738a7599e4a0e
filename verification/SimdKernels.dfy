/** The vector kernels of tranc/PCMBlitterLibX86.cpp.  What a lane computes is
    left abstract; the subject is which samples are read and written, by which
    instructions, and that the result is the per-lane map. */
module SimdKernels {

  /** A kernel: how many lanes a step converts, and the sizes in bytes of a
      source and a destination sample. */
  datatype Shape = Shape(lanes: nat, srcSize: nat, dstSize: nat)

  /** Float32ToNativeInt16 and its swapped form. */
  const FLOAT_TO_INT16: Shape := Shape(8, 4, 2)
  /** Float32ToNativeInt32, NativeInt32ToFloat32 and their swapped forms. */
  const WORD_TO_WORD: Shape := Shape(4, 4, 4)
  /** NativeInt16ToFloat32 and its swapped form. */
  const INT16_TO_FLOAT: Shape := Shape(8, 2, 4)

  predicate IsKernel(k: Shape)
  {
    k == FLOAT_TO_INT16 || k == WORD_TO_WORD || k == INT16_TO_FLOAT
  }

  /** The bytes of i samples of two or of four bytes. */
  function Bytes(size: nat, i: nat): nat
    requires size == 2 || size == 4
  {
    if size == 2 then 2 * i else 4 * i
  }

  /** Sample i of a buffer at address base lies on a 16-byte boundary. */
  predicate Aligned(base: nat, size: nat, i: nat)
    requires size == 2 || size == 4
  {
    (base + Bytes(size, i)) % 16 == 0
  }

  // ----- Instructions -----

  /** Loads n samples; an aligned load faults off a 16-byte boundary. */
  method Load<S>(src: array<S>, base: nat, size: nat, i: nat, n: nat, aligned: bool) returns (v: seq<S>)
    requires i + n <= src.Length && (size == 2 || size == 4)
    requires Bytes(size, n) % 16 == 0 && (aligned ==> Aligned(base, size, i))
    ensures v == src[i..i + n]
  {
    v := src[i..i + n];
  }

  /** Stores a vector; an aligned store faults off a 16-byte boundary. */
  method Store<D>(dst: array<D>, base: nat, size: nat, i: nat, v: seq<D>, aligned: bool)
    requires i + |v| <= dst.Length && (size == 2 || size == 4)
    requires Bytes(size, |v|) % 16 == 0 && (aligned ==> Aligned(base, size, i))
    modifies dst
    ensures forall k :: 0 <= k < dst.Length ==> dst[k] == if i <= k < i + |v| then v[k - i] else old(dst[k])
  {
    forall k | 0 <= k < |v| {
      dst[i + k] := v[k];
    }
  }

  // ----- The per-lane map -----

  /** The first n samples are converted, the others are what they were. */
  ghost predicate MappedUpTo<S, D>(f: S -> D, src: seq<S>, before: seq<D>, after: seq<D>, n: nat)
  {
    && n <= |src| && n <= |after| == |before|
    && forall k :: 0 <= k < |after| && k < n ==> after[k] == f(src[k])
  }

  /** ... and nothing has been written beyond limit. */
  ghost predicate KeptFrom<D>(before: seq<D>, after: seq<D>, limit: nat)
  {
    |after| == |before| && forall k :: limit <= k < |after| ==> after[k] == before[k]
  }

  ghost predicate Converted<S, D>(f: S -> D, src: seq<S>, before: seq<D>, after: seq<D>, n: nat, limit: nat)
  {
    MappedUpTo(f, src, before, after, n) && KeptFrom(before, after, limit)
  }

  /** One vector: load, convert every lane, store. */
  method Step<S, D>(k: Shape, lane: S -> D, src: array<S>, srcBase: nat, s: nat, loadAligned: bool, dst: array<D>,
                    dstBase: nat, d: nat, storeAligned: bool)
    requires (src as object) != dst
    requires IsKernel(k) && s + k.lanes <= src.Length && d + k.lanes <= dst.Length
    requires loadAligned ==> Aligned(srcBase, k.srcSize, s)
    requires storeAligned ==> Aligned(dstBase, k.dstSize, d)
    modifies dst
    ensures forall m :: 0 <= m < dst.Length ==>
              dst[m] == if d <= m < d + k.lanes then lane(src[s + (m - d)]) else old(dst[m])
  {
    var v := Load(src, srcBase, k.srcSize, s, k.lanes, loadAligned);
    var w := seq(|v|, m requires 0 <= m < |v| => lane(v[m]));
    Store(dst, dstBase, k.dstSize, d, w, storeAligned);
  }

  /** Samples to skip after an unaligned head so that the stores are aligned. */
  function Advance(k: Shape, base: nat): nat
    requires IsKernel(k)
  {
    if k.dstSize == 2 then (16 - base % 16) / 2 else (16 - base % 16) / 4
  }

  lemma AdvanceAligns(k: Shape, base: nat)
    requires IsKernel(k) && base % k.dstSize == 0
    ensures 1 <= Advance(k, base) <= k.lanes
    ensures Aligned(base, k.dstSize, Advance(k, base))
  {
    ToBoundary(base, base % 16);
    if k.dstSize == 2 {
      EvenRest(base, base % 16);
    } else {
      QuarterRest(base, base % 16);
    }
  }

  /** The first store of the main loop goes to a multiple of sixteen. */
  lemma AdvanceReaches(k: Shape, base: nat)
    requires IsKernel(k) && base % k.dstSize == 0
    ensures (base + k.dstSize * Advance(k, base)) % 16 == 0
  {
    AdvanceAligns(k, base);
  }

  lemma ToBoundary(base: nat, r: nat)
    requires r == base % 16
    ensures (base + (16 - r)) % 16 == 0
  {
    assert base + (16 - r) == (base / 16 + 1) * 16;
  }

  lemma EvenRest(base: nat, r: nat)
    requires r == base % 16 && base % 2 == 0
    ensures (16 - r) / 2 * 2 == 16 - r
  {
    var m := 8 - base / 2 + base / 16 * 8;
    assert 16 - r == 2 * m;
  }

  lemma QuarterRest(base: nat, r: nat)
    requires r == base % 16 && base % 4 == 0
    ensures (16 - r) / 4 * 4 == 16 - r
  {
    var m := 4 - base / 4 + base / 16 * 4;
    assert 16 - r == 4 * m;
  }

  lemma StaysAligned(k: Shape, base: nat, size: nat, i: nat)
    requires IsKernel(k) && (size == k.srcSize || size == k.dstSize) && Aligned(base, size, i)
    ensures Aligned(base, size, i + k.lanes)
  {
    assert Bytes(size, i + k.lanes) == Bytes(size, i) + Bytes(size, k.lanes);
    assert Bytes(size, k.lanes) == 16 || Bytes(size, k.lanes) == 32;
  }

  // ----- The kernels -----

  /** The main loop may use its instructions at sample s. */
  predicate Steered(k: Shape, srcBase: nat, dstBase: nat, s: nat, loadAligned: bool)
    requires IsKernel(k)
  {
    Aligned(dstBase, k.dstSize, s) && (loadAligned ==> Aligned(srcBase, k.srcSize, s))
  }

  /** The next vector of the main loop, with an aligned store. */
  method NextVector<S, D>(k: Shape, lane: S -> D, src: array<S>, srcBase: nat, dst: array<D>, dstBase: nat, n: nat,
                          s: nat, ghost next: nat, loadAligned: bool, ghost before: seq<D>)
    requires (src as object) != dst && IsKernel(k) && s + k.lanes == next <= n <= src.Length && n <= dst.Length
    requires Steered(k, srcBase, dstBase, s, loadAligned) && Converted(lane, src[..], before, dst[..], s, n)
    modifies dst
    ensures Steered(k, srcBase, dstBase, next, loadAligned) && Converted(lane, src[..], before, dst[..], next, n)
  {
    StaysAligned(k, dstBase, k.dstSize, s);
    if loadAligned {
      StaysAligned(k, srcBase, k.srcSize, s);
    }
    Step(k, lane, src, srcBase, s, loadAligned, dst, dstBase, s, true);
  }

  /** The main loop: whole vectors with aligned stores, from sample s on. */
  method VectorLoop<S, D>(k: Shape, lane: S -> D, src: array<S>, srcBase: nat, dst: array<D>, dstBase: nat, n: nat,
                          s0: nat, loadAligned: bool, ghost before: seq<D>)
    returns (s: nat)
    requires (src as object) != dst && IsKernel(k) && n <= src.Length && n <= dst.Length && s0 <= n
    requires Steered(k, srcBase, dstBase, s0, loadAligned) && Converted(lane, src[..], before, dst[..], s0, n)
    modifies dst
    ensures s0 <= s <= n && n - s < k.lanes && Converted(lane, src[..], before, dst[..], s, n)
  {
    s := s0;
    var count := n - s0;
    while count >= k.lanes
      invariant s0 <= s <= n && count == n - s
      invariant Steered(k, srcBase, dstBase, s, loadAligned)
      invariant Converted(lane, src[..], before, dst[..], s, n)
    {
      var next := s + k.lanes;
      NextVector(k, lane, src, srcBase, dst, dstBase, n, s, next, loadAligned, before);
      s := next;
      count := count - k.lanes;
    }
  }

  /** The vector path: an unaligned head that steers the stores to a 16-byte
      boundary, the main loop, and one unaligned vector at the end. */
  method VectorKernel<S, D>(k: Shape, lane: S -> D, src: array<S>, srcBase: nat, dst: array<D>, dstBase: nat, n: nat)
    requires (src as object) != dst && IsKernel(k) && k.lanes <= n <= src.Length && n <= dst.Length
    requires srcBase % k.srcSize == 0 && dstBase % k.dstSize == 0
    modifies dst
    ensures Converted(lane, src[..], old(dst[..]), dst[..], n, n)
  {
    ghost var before := dst[..];
    var s, loadAligned := 0, true;
    if srcBase % 16 != 0 || dstBase % 16 != 0 {
      Step(k, lane, src, srcBase, 0, false, dst, dstBase, 0, false);
      AdvanceAligns(k, dstBase);
      s := Advance(k, dstBase);
      loadAligned := (srcBase + Bytes(k.srcSize, s)) % 16 == 0;
    }
    s := VectorLoop(k, lane, src, srcBase, dst, dstBase, n, s, loadAligned, before);
    if n - s > 0 {
      Step(k, lane, src, srcBase, n - k.lanes, false, dst, dstBase, n - k.lanes, false);
    }
  }

  /** The scalar path for few samples; it rounds on its own. */
  method ScalarKernel<S, D>(scalar: S -> D, src: array<S>, dst: array<D>, n: nat)
    requires (src as object) != dst && n <= src.Length && n <= dst.Length
    modifies dst
    ensures Converted(scalar, src[..], old(dst[..]), dst[..], n, n)
  {
    ghost var before := dst[..];
    var i, count := 0, n;
    while count > 0
      invariant 0 <= i <= n && count == n - i
      invariant Converted(scalar, src[..], before, dst[..], i, i)
    {
      dst[i] := scalar(src[i]);
      i := i + 1;
      count := count - 1;
    }
  }

  /** A kernel of either kind, for any number of samples at any addresses of
      natural alignment. */
  method Kernel<S, D>(k: Shape,
                      lane: S -> D, scalar: S -> D, src: array<S>, srcBase: nat, dst: array<D>, dstBase: nat, n: nat)
    requires (src as object) != dst && IsKernel(k) && n <= src.Length && n <= dst.Length
    requires srcBase % k.srcSize == 0 && dstBase % k.dstSize == 0
    modifies dst
    ensures Converted(if n >= k.lanes then lane else scalar, src[..], old(dst[..]), dst[..], n, n)
  {
    if n >= k.lanes {
      VectorKernel(k, lane, src, srcBase, dst, dstBase, n);
    } else {
      ScalarKernel(scalar, src, dst, n);
    }
  }

  // ----- Pack32ToLE24 -----

  type Vector = v: seq<bv8> | |v| == 16 witness seq(16, _ => 0)

  /** _mm_srli_si128: shifts right by n bytes, zeros come in at the top. */
  function ShiftRight(v: Vector, n: nat): (r: Vector)
    requires n <= 16
    ensures forall k :: 0 <= k < 16 ==> r[k] == if k + n < 16 then v[k + n] else 0
  {
    seq(16, k requires 0 <= k < 16 => if k + n < 16 then v[k + n] else 0)
  }

  /** _mm_slli_si128. */
  function ShiftLeft(v: Vector, n: nat): (r: Vector)
    ensures forall k :: 0 <= k < 16 ==> r[k] == if k >= n then v[k - n] else 0
  {
    seq(16, k requires 0 <= k < 16 => if k >= n then v[k - n] else 0)
  }

  function And(v: Vector, w: Vector): (r: Vector)
    ensures forall k :: 0 <= k < 16 ==> r[k] == v[k] & w[k]
  {
    seq(16, k requires 0 <= k < 16 => v[k] & w[k])
  }

  function Or(v: Vector, w: Vector): (r: Vector)
    ensures forall k :: 0 <= k < 16 ==> r[k] == v[k] | w[k]
  {
    seq(16, k requires 0 <= k < 16 => v[k] | w[k])
  }

  /** 0x00FFFFFF in the lowest word. */
  function Mask(): (m: Vector)
    ensures forall k :: 0 <= k < 16 ==> m[k] == if k < 3 then 0xFF else 0
  {
    seq(16, k requires 0 <= k < 16 => if k < 3 then 0xFF else 0)
  }

  /** A mask of three bytes from byte i on. */
  predicate Selects(m: Vector, i: nat)
  {
    forall k :: 0 <= k < 16 ==> m[k] == if i <= k < i + 3 then 0xFF else 0
  }

  /** The first n words are packed: byte j + 1 of word i is byte 3 * i + j. */
  predicate PackedTo(v: Vector, store: Vector, n: nat)
  {
    forall k :: 0 <= k < 16 ==> store[k] == if k < 3 * n && k + k / 3 + 1 < 16 then v[k + k / 3 + 1] else 0
  }

  /** val is v shifted right by n bytes. */
  predicate Shifted(v: Vector, val: Vector, n: nat)
  {
    forall k :: 0 <= k < 16 ==> val[k] == if k + n < 16 then v[k + n] else 0
  }

  lemma PackNext(v: Vector, val: Vector, mask: Vector, store: Vector, n: nat)
    requires n < 4 && PackedTo(v, store, n) && Selects(mask, 3 * n) && Shifted(v, val, n + 1)
    ensures PackedTo(v, Or(store, And(val, mask)), n + 1)
  {
    forall k | 0 <= k < 16
      ensures Or(store, And(val, mask))[k] == if k < 3 * (n + 1) && k + k / 3 + 1 < 16 then v[k + k / 3 + 1] else 0
    {
      MaskByte(val[k], mask[k], store[k]);
    }
  }

  lemma FirstPacked(v: Vector, val: Vector, mask: Vector)
    requires Selects(mask, 0) && Shifted(v, val, 1)
    ensures PackedTo(v, And(val, mask), 1)
  {
    forall k | 0 <= k < 16 ensures And(val, mask)[k] == if k < 3 then v[k + 1] else 0 {
      MaskByte(val[k], mask[k], 0);
      OrZero(val[k] & mask[k]);
    }
  }

  lemma OrZero(b: bv8)
    ensures 0 | b == b
  {
  }

  lemma MaskByte(val: bv8, mask: bv8, store: bv8)
    ensures mask == 0xFF ==> store | (val & mask) == store | val
    ensures mask == 0 ==> store | (val & mask) == store
    ensures store == 0 ==> store | val == val
  {
  }

  /** One more word: shift the words down by a byte, the mask up by three, and
      merge. */
  method PackWord(v: Vector, val: Vector, mask: Vector, store: Vector, ghost n: nat)
    returns (val': Vector, mask': Vector, store': Vector)
    requires 1 <= n < 4 && PackedTo(v, store, n) && Selects(mask, 3 * (n - 1)) && Shifted(v, val, n)
    ensures PackedTo(v, store', n + 1) && Selects(mask', 3 * n) && Shifted(v, val', n + 1)
  {
    val' := ShiftRight(val, 1);
    mask' := ShiftLeft(mask, 3);
    PackNext(v, val', mask', store, n);
    store' := Or(store, And(val', mask'));
  }

  /** Packs the upper three bytes of four little-endian words into twelve
      bytes; the last four bytes are zero. */
  method Pack32ToLE24(v: Vector, mask0: Vector) returns (store: Vector)
    requires mask0 == Mask()
    ensures PackedTo(v, store, 4)
  {
    var val, mask := ShiftRight(v, 1), mask0;
    store := And(val, mask);
    FirstPacked(v, val, mask);
    val, mask, store := PackWord(v, val, mask, store, 1);
    val, mask, store := PackWord(v, val, mask, store, 2);
    val, mask, store := PackWord(v, val, mask, store, 3);
  }

  // ----- Float32ToNativeInt24 -----

  /** A 32-bit result as its bytes, lowest first. */
  type Word = w: seq<bv8> | |w| == 4 witness [0, 0, 0, 0]

  /** Byte m of the 24-bit form of the samples: the upper three bytes of each. */
  function Byte24<S>(f: S -> Word, src: seq<S>, m: nat): bv8
    requires m / 3 < |src|
  {
    f(src[m / 3])[m % 3 + 1]
  }

  /** The first n samples are in place; nothing beyond sample limit has been
      written. */
  ghost predicate Converted24<S>(f: S -> Word, src: seq<S>, before: seq<bv8>, after: seq<bv8>, n: nat, limit: nat)
  {
    && n <= |src| && |after| == |before|
    && (forall m: nat :: m < |after| && m / 3 < n ==> after[m] == Byte24(f, src, m))
    && (forall m :: 3 * limit <= m < |after| ==> after[m] == before[m])
  }

  function WordsOf<S>(f: S -> Word, src: seq<S>, s: nat): (v: Vector)
    requires s + 4 <= |src|
    ensures forall k :: 0 <= k < 16 ==> v[k] == f(src[s + k / 4])[k % 4]
  {
    seq(16, k requires 0 <= k < 16 => f(src[s + k / 4])[k % 4])
  }

  lemma PackedBytes<S>(f: S -> Word, src: seq<S>, s: nat, store: Vector)
    requires s + 4 <= |src| && PackedTo(WordsOf(f, src, s), store, 4)
    ensures forall m: nat :: 3 * s <= m < 3 * s + 12 ==> store[m - 3 * s] == Byte24(f, src, m)
  {
    forall m: nat | 3 * s <= m < 3 * s + 12 ensures store[m - 3 * s] == Byte24(f, src, m) {
      var k := m - 3 * s;
      assert (k + k / 3 + 1) / 4 == k / 3 && (k + k / 3 + 1) % 4 == k % 3 + 1;
      assert (3 * s + k) / 3 == s + k / 3 && (3 * s + k) % 3 == k % 3;
    }
  }

  lemma WordsOfSlice<S>(f: S -> Word, src: seq<S>, s: nat)
    requires s + 4 <= |src|
    ensures WordsOf(f, src[s..s + 4], 0) == WordsOf(f, src, s)
  {
    forall k | 0 <= k < 16 ensures WordsOf(f, src[s..s + 4], 0)[k] == WordsOf(f, src, s)[k] {
      assert src[s..s + 4][k / 4] == src[s + k / 4];
    }
  }

  /** Four samples: load, convert, pack, and store sixteen bytes (`wide`) or
      the twelve that matter. */
  method Step24<S>(lane: S -> Word, src: array<S>, srcBase: nat, s: nat, loadAligned: bool, dst: array<bv8>, wide: bool)
    requires (src as object) != dst && s + 4 <= src.Length && 3 * s + (if wide then 16 else 12) <= dst.Length
    requires loadAligned ==> Aligned(srcBase, 4, s)
    modifies dst
    ensures forall m: nat :: 3 * s <= m < 3 * s + 12 ==> dst[m] == Byte24(lane, src[..], m)
    ensures forall m :: 0 <= m < dst.Length && !(3 * s <= m < 3 * s + (if wide then 16 else 12)) ==>
              dst[m] == old(dst[m])
  {
    var v := Load(src, srcBase, 4, s, 4, loadAligned);
    WordsOfSlice(lane, src[..], s);
    assert v == src[..][s..s + 4];
    var store := Pack32ToLE24(WordsOf(lane, v, 0), Mask());
    StorePacked(lane, src[..], s, store, dst, wide);
  }

  /** Stores the packed samples s to s + 3. */
  method StorePacked<S>(ghost lane: S -> Word, ghost src: seq<S>, s: nat, store: Vector, dst: array<bv8>, wide: bool)
    requires s + 4 <= |src| && PackedTo(WordsOf(lane, src, s), store, 4)
    requires 3 * s + (if wide then 16 else 12) <= dst.Length
    modifies dst
    ensures forall m: nat :: 3 * s <= m < 3 * s + 12 ==> dst[m] == Byte24(lane, src, m)
    ensures forall m :: 0 <= m < dst.Length && !(3 * s <= m < 3 * s + (if wide then 16 else 12)) ==>
              dst[m] == old(dst[m])
  {
    PackedBytes(lane, src, s, store);
    StoreBytes(dst, 3 * s, if wide then store else store[..12]);
  }

  /** Stores bytes at p, at any address. */
  method StoreBytes(dst: array<bv8>, p: nat, bytes: seq<bv8>)
    requires p + |bytes| <= dst.Length
    modifies dst
    ensures forall m :: 0 <= m < dst.Length ==> dst[m] == if p <= m < p + |bytes| then bytes[m - p] else old(dst[m])
  {
    forall k | 0 <= k < |bytes| {
      dst[p + k] := bytes[k];
    }
  }

  lemma StepConverts<S>(f: S -> Word, src: seq<S>, before: seq<bv8>, mid: seq<bv8>, after: seq<bv8>, s: nat, n: nat,
                        wide: bool)
    requires Converted24(f, src, before, mid, s, n) && s + 4 <= |src| && |after| == |mid|
    requires 3 * s + (if wide then 16 else 12) <= 3 * n <= |mid|
    requires forall m: nat :: 3 * s <= m < 3 * s + 12 ==> after[m] == Byte24(f, src, m)
    requires forall m :: 0 <= m < |mid| && !(3 * s <= m < 3 * s + (if wide then 16 else 12)) ==> after[m] == mid[m]
    ensures Converted24(f, src, before, after, s + 4, n)
  {
    forall m: nat | m < |after| && m / 3 < s + 4 ensures after[m] == Byte24(f, src, m) {
      assert m < 3 * s ==> m / 3 < s;
    }
  }

  /** The next four samples, with an aligned load. */
  method Next24<S>(lane: S -> Word, src: array<S>, srcBase: nat, s: nat, dst: array<bv8>, n: nat, wide: bool,
                   ghost before: seq<bv8>)
    requires (src as object) != dst && s + 4 <= n <= src.Length
    requires 3 * s + (if wide then 16 else 12) <= 3 * n <= dst.Length
    requires Aligned(srcBase, 4, s) && Converted24(lane, src[..], before, dst[..], s, n)
    modifies dst
    ensures Aligned(srcBase, 4, s + 4) && Converted24(lane, src[..], before, dst[..], s + 4, n)
  {
    ghost var mid := dst[..];
    Step24(lane, src, srcBase, s, true, dst, wide);
    StepConverts(lane, src[..], before, mid, dst[..], s, n, wide);
  }

  method Kernel24<S>(lane: S -> Word, scalar: S -> Word, src: array<S>, srcBase: nat, dst: array<bv8>, n: nat)
    requires (src as object) != dst && n <= src.Length && 3 * n <= dst.Length && srcBase % 4 == 0
    modifies dst
    ensures Converted24(if n >= 6 then lane else scalar, src[..], old(dst[..]), dst[..], n, n)
  {
    if n >= 6 {
      VectorKernel24(lane, src, srcBase, dst, n);
    } else {
      ScalarKernel24(scalar, src, dst, n);
    }
  }

  method VectorKernel24<S>(lane: S -> Word, src: array<S>, srcBase: nat, dst: array<bv8>, n: nat)
    requires (src as object) != dst && 6 <= n <= src.Length && 3 * n <= dst.Length && srcBase % 4 == 0
    modifies dst
    ensures Converted24(lane, src[..], old(dst[..]), dst[..], n, n)
  {
    ghost var before := dst[..];
    var s := 0;
    if srcBase % 16 != 0 {
      Step24(lane, src, srcBase, 0, false, dst, true);
      StepConverts(lane, src[..], before, before, dst[..], 0, n, true);
      s := (16 - srcBase % 16) / 4;
      HeadAligns(srcBase, s);
    }
    s := MainLoop24(lane, src, srcBase, dst, n, s, before);
    if n - s > 0 {
      ghost var mid := dst[..];
      Step24(lane, src, srcBase, n - 4, false, dst, false);
      StepConverts(lane, src[..], before, mid, dst[..], n - 4, n, false);
    }
  }

  lemma HeadAligns(base: nat, adv: nat)
    requires base % 4 == 0 && base % 16 != 0 && adv == (16 - base % 16) / 4
    ensures 1 <= adv <= 3 && Aligned(base, 4, adv)
  {
    QuarterRest(base, base % 16);
    ToBoundary(base, base % 16);
  }

  /** Whole vectors while a sixteen-byte store stays inside the buffer, then one
      more with a twelve-byte store. */
  method MainLoop24<S>(lane: S -> Word, src: array<S>, srcBase: nat, dst: array<bv8>, n: nat, s0: nat,
                       ghost before: seq<bv8>)
    returns (s: nat)
    requires (src as object) != dst && s0 <= n <= src.Length && 3 * n <= dst.Length && Aligned(srcBase, 4, s0)
    requires Converted24(lane, src[..], before, dst[..], s0, n)
    modifies dst
    ensures s0 <= s <= n && n - s < 4 && Converted24(lane, src[..], before, dst[..], s, n)
  {
    s := s0;
    var count := n - s0;
    while count >= 6
      invariant s0 <= s <= n && count == n - s && Aligned(srcBase, 4, s)
      invariant Converted24(lane, src[..], before, dst[..], s, n)
    {
      Next24(lane, src, srcBase, s, dst, n, true, before);
      s := s + 4;
      count := count - 4;
    }
    if count >= 4 {
      Next24(lane, src, srcBase, s, dst, n, false, before);
      s := s + 4;
    }
  }

  method ScalarKernel24<S>(scalar: S -> Word, src: array<S>, dst: array<bv8>, n: nat)
    requires (src as object) != dst && n <= src.Length && 3 * n <= dst.Length
    modifies dst
    ensures Converted24(scalar, src[..], old(dst[..]), dst[..], n, n)
  {
    ghost var before := dst[..];
    var i := 0;
    while i < n
      invariant 0 <= i <= n
      invariant Converted24(scalar, src[..], before, dst[..], i, i)
    {
      var w := scalar(src[i]);
      dst[3 * i], dst[3 * i + 1], dst[3 * i + 2] := w[1], w[2], w[3];
      i := i + 1;
    }
  }

  /** Three bytes a sample, in order: the upper three of its result. */
  lemma TriplesLaid<S>(f: S -> Word, src: seq<S>, before: seq<bv8>, after: seq<bv8>, n: nat, i: nat)
    requires Converted24(f, src, before, after, n, n) && i < n && 3 * n <= |after|
    ensures after[3 * i..3 * i + 3] == f(src[i])[1..]
  {
    var w := f(src[i]);
    assert 3 * i / 3 == i && (3 * i + 1) / 3 == i && (3 * i + 2) / 3 == i;
    assert after[3 * i] == Byte24(f, src, 3 * i) == w[1];
    assert after[3 * i + 1] == Byte24(f, src, 3 * i + 1) == w[2];
    assert after[3 * i + 2] == Byte24(f, src, 3 * i + 2) == w[3];
  }
}
