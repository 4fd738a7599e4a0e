/** The quantiser of TFloatToIntBlitter over exact reals: multiply by 2^31, add
    half a step, FloatToInt, shift right. */
module Quantiser {

  function Pow2(k: nat): (p: int)
    ensures p >= 1
  {
    if k == 0 then 1 else 2 * Pow2(k - 1)
  }

  const FULL: int := 0x8000_0000

  /** mRound: half of the step that the shift leaves. */
  function Round(shift: nat): int
  {
    if shift == 0 then 0 else Pow2(shift - 1)
  }

  /** The C conversion of a double to an integer. */
  function Truncate(f: real): int
  {
    if f >= 0.0 then f.Floor else -((-f).Floor)
  }

  /** FloatToInt, called with max32 = 2^31 - 1 - round. */
  function FloatToInt(f: real, shift: nat): int
  {
    if f >= (FULL - 1 - Round(shift)) as real then 0x7FFF_FFFF else Truncate(f)
  }

  /** The arithmetic right shift. */
  function ShiftRight(i: int, shift: nat): int
  {
    i / Pow2(shift)
  }

  /** The code of a sample; scaled is the sample times 2^31. */
  function Code(scaled: real, shift: nat): int
  {
    ShiftRight(FloatToInt(scaled + Round(shift) as real, shift), shift)
  }

  lemma TruncateNear(f: real)
    ensures f >= 0.0 ==> f - 1.0 < Truncate(f) as real <= f
    ensures f < 0.0 ==> f <= Truncate(f) as real < f + 1.0
  {
  }

  lemma TruncateMonotone(f: real, g: real)
    requires f <= g
    ensures Truncate(f) <= Truncate(g)
  {
    TruncateNear(f);
    TruncateNear(g);
    if f >= 0.0 {
      assert f.Floor <= g.Floor;
    } else if g < 0.0 {
      assert (-g).Floor <= (-f).Floor;
    }
  }

  lemma {:induction false} Pow2Divides(k: nat, m: nat)
    requires k <= m
    ensures Pow2(m) == Pow2(k) * Pow2(m - k)
  {
    if k < m {
      Pow2Divides(k, m - 1);
    }
  }

  lemma ShiftBounds(i: int, shift: nat)
    ensures ShiftRight(i, shift) * Pow2(shift) <= i < ShiftRight(i, shift) * Pow2(shift) + Pow2(shift)
  {
  }

  lemma ShiftMonotone(i: int, j: int, shift: nat)
    requires i <= j
    ensures ShiftRight(i, shift) <= ShiftRight(j, shift)
  {
    ShiftBounds(i, shift);
    ShiftBounds(j, shift);
    if ShiftRight(i, shift) > ShiftRight(j, shift) {
      MulMonotone(ShiftRight(j, shift) + 1, ShiftRight(i, shift), Pow2(shift));
      assert false;
    }
  }

  lemma MulMonotone(a: int, b: int, p: int)
    requires a <= b && p >= 0
    ensures a * p <= b * p
  {
  }

  lemma FullIsPow2()
    ensures Pow2(31) == FULL
  {
    assert Pow2(3) == 8 && Pow2(4) == 16;
    Pow2Divides(4, 7);
    Pow2Divides(4, 8);
    Pow2Divides(8, 15);
    Pow2Divides(8, 16);
    Pow2Divides(16, 31);
  }

  /** The step times the number of codes on each side of zero is full scale. */
  lemma StepTimesCodes(shift: nat)
    requires shift <= 31
    ensures Pow2(shift) * Pow2(31 - shift) == FULL
  {
    Pow2Divides(shift, 31);
    FullIsPow2();
  }

  lemma Products(a: int, b: int)
    ensures a * -b == -(a * b) && (b - 1) * a == a * b - a
  {
  }

  /** Every value that is clamped has the code of full scale anyway: clamping
      at 2^31 - 1 - round instead of 2^31 - 1 changes no code. */
  lemma FullScaleCode(i: int, shift: nat)
    requires shift <= 31 && FULL - 1 - Round(shift) <= i < FULL
    ensures ShiftRight(i, shift) == ShiftRight(0x7FFF_FFFF, shift) == Pow2(31 - shift) - 1
  {
    StepTimesCodes(shift);
    TopCode(i, Pow2(shift), Pow2(31 - shift), shift);
    TopCode(0x7FFF_FFFF, Pow2(shift), Pow2(31 - shift), shift);
  }

  lemma TopCode(i: int, step: int, codes: int, shift: nat)
    requires step == Pow2(shift) && step * codes == FULL && FULL - 1 - Round(shift) <= i < FULL
    ensures i / step == codes - 1
  {
    assert shift > 0 ==> 2 * Round(shift) == step;
    assert (codes - 1) * step == FULL - step;
    assert step * (codes - 1) <= i < step * (codes - 1) + step;
    QuotientIs(i, step, codes - 1);
  }

  lemma QuotientIs(i: int, step: int, q: int)
    requires step >= 1 && step * q <= i < step * q + step
    ensures i / step == q
  {
    var r := i - step * q;
    assert i == step * (i / step) + i % step;
    if i / step < q {
      MulMonotone(i / step + 1, q, step);
      assert false;
    }
    if i / step > q {
      MulMonotone(q + 1, i / step, step);
      assert false;
    }
  }

  lemma ClampHarmless(f: real, shift: nat)
    requires shift <= 31 && f < FULL as real
    ensures ShiftRight(FloatToInt(f, shift), shift) == ShiftRight(Truncate(f), shift)
  {
    if f >= (FULL - 1 - Round(shift)) as real {
      TruncateAtLeast(f, FULL - 1 - Round(shift));
      FullScaleCode(Truncate(f), shift);
    }
  }

  lemma TruncateAtLeast(f: real, bound: int)
    requires f >= bound as real
    ensures Truncate(f) >= bound
    ensures f < FULL as real ==> Truncate(f) < FULL
  {
    TruncateNear(f);
  }

  // ----- What the quantiser guarantees -----

  lemma FloatToIntMonotone(f: real, g: real, shift: nat)
    requires f <= g
    ensures FloatToInt(f, shift) <= FloatToInt(g, shift)
  {
    TruncateMonotone(f, g);
    TruncateNear(f);
  }

  /** A louder sample never gets a smaller code. */
  lemma CodeMonotone(x: real, y: real, shift: nat)
    requires x <= y
    ensures Code(x, shift) <= Code(y, shift)
  {
    FloatToIntMonotone(x + Round(shift) as real, y + Round(shift) as real, shift);
    ShiftMonotone(FloatToInt(x + Round(shift) as real, shift), FloatToInt(y + Round(shift) as real, shift), shift);
  }

  /** Clamping early changes no code: below full scale the code is that of the
      value itself, from there on it is that of full scale. */
  lemma CodeUnclamped(x: real, shift: nat)
    requires shift <= 31
    ensures var f := x + Round(shift) as real;
            Code(x, shift) == if f < FULL as real then ShiftRight(Truncate(f), shift) else Pow2(31 - shift) - 1
  {
    var f := x + Round(shift) as real;
    if f < FULL as real {
      ClampHarmless(f, shift);
    } else {
      FullScaleCode(0x7FFF_FFFF, shift);
    }
  }

  /** The codes of samples from -1 up are those of the bit depth. */
  lemma CodeRange(x: real, shift: nat)
    requires shift <= 31 && x >= -(FULL as real)
    ensures -Pow2(31 - shift) <= Code(x, shift) < Pow2(31 - shift)
  {
    var f := x + Round(shift) as real;
    FullScaleCode(0x7FFF_FFFF, shift);
    TruncateNear(f);
    assert -FULL <= FloatToInt(f, shift) <= 0x7FFF_FFFF;
    ShiftMonotone(FloatToInt(f, shift), 0x7FFF_FFFF, shift);
    ShiftMonotone(-FULL, FloatToInt(f, shift), shift);
    LowestCode(shift);
  }

  lemma LowestCode(shift: nat)
    requires shift <= 31
    ensures ShiftRight(-FULL, shift) == -Pow2(31 - shift)
  {
    StepTimesCodes(shift);
    Products(Pow2(shift), Pow2(31 - shift));
    QuotientIs(-FULL, Pow2(shift), -Pow2(31 - shift));
  }

  /** What the code stands for, on the scale of 2^31. */
  function Value(x: real, shift: nat): real
  {
    (Code(x, shift) * Pow2(shift)) as real
  }

  lemma ErrorUnclamped(x: real, shift: nat)
    requires x >= -(FULL as real) && x + (Round(shift) as real) < (FULL - 1 - Round(shift)) as real
    ensures -((Round(shift) + 1) as real) <= Value(x, shift) - x <= (Round(shift) + 1) as real
  {
    var f := x + Round(shift) as real;
    var i := Truncate(f);
    TruncateNear(f);
    ShiftBounds(i, shift);
    assert Code(x, shift) == ShiftRight(i, shift);
    assert shift > 0 ==> 2 * Round(shift) == Pow2(shift);
    assert i - Pow2(shift) + 1 <= Code(x, shift) * Pow2(shift) <= i;
    assert (i - Pow2(shift) + 1) as real <= Value(x, shift) <= i as real;
  }

  lemma ClampedCode(x: real, shift: nat)
    requires shift <= 31 && x + (Round(shift) as real) >= (FULL - 1 - Round(shift)) as real
    ensures Code(x, shift) == Pow2(31 - shift) - 1
  {
    FullScaleCode(0x7FFF_FFFF, shift);
  }

  lemma TopValue(code: int, step: int, codes: int)
    requires code == codes - 1
    ensures code * step == step * codes - step
  {
    Products(step, codes);
  }

  lemma ClampedValue(x: real, shift: nat)
    requires shift <= 31 && x + (Round(shift) as real) >= (FULL - 1 - Round(shift)) as real
    ensures Code(x, shift) * Pow2(shift) == FULL - Pow2(shift)
  {
    ClampedCode(x, shift);
    StepTimesCodes(shift);
    TopValue(Code(x, shift), Pow2(shift), Pow2(31 - shift));
  }

  lemma ErrorClamped(x: real, shift: nat)
    requires shift <= 31 && x + (Round(shift) as real) >= (FULL - 1 - Round(shift)) as real
    ensures Value(x, shift) == (FULL - Pow2(shift)) as real && Value(x, shift) - x <= (Round(shift) + 1) as real
  {
    ClampedValue(x, shift);
    assert shift > 0 ==> 2 * Round(shift) == Pow2(shift);
  }

  /** For samples from -1 up the code is within half a step and one unit of
      2^-31 of the sample exactly when the sample is not beyond the highest
      code by more than that. */
  lemma ErrorBound(x: real, shift: nat)
    requires shift <= 31 && x >= -(FULL as real)
    ensures (-((Round(shift) + 1) as real) <= Value(x, shift) - x <= (Round(shift) + 1) as real) <==>
            x <= (FULL - Pow2(shift) + Round(shift) + 1) as real
  {
    assert shift > 0 ==> 2 * Round(shift) == Pow2(shift);
    if x + (Round(shift) as real) < (FULL - 1 - Round(shift)) as real {
      ErrorUnclamped(x, shift);
    } else {
      ErrorClamped(x, shift);
    }
  }

  /** Full scale at 24 bits: the error is the whole step of 256, where half a
      step and one unit are 129. */
  lemma FullScaleError()
    ensures Value(FULL as real, 8) == (FULL - 256) as real
    ensures !(-((Round(8) + 1) as real) <= Value(FULL as real, 8) - FULL as real)
  {
    assert Pow2(4) == 16 && Pow2(8) == 256 && Round(8) == 128;
    ErrorClamped(FULL as real, 8);
  }
}
