/**
 * A single oscillator of the tone generator: its per-sample phase step, the
 * phase accumulator with its one-turn wrap, the square and triangle
 * evaluators, and the complex rotor that drives a sine oscillator.
 */
module Oscillator {
  import opened Numerics

  /** The sample rate every phase step is derived from. */
  const SampleRate: real := 48000.0

  /** Radians the phase advances per sample: `frequency / samplerate * 2.*PI`. */
  function PhaseStep(frequency: real): (step: real)
    ensures 0.0 <= frequency <= 24000.0 ==> 0.0 <= step <= PI
    ensures frequency == 0.0 ==> step == 0.0
  {
    frequency / SampleRate * 2.0 * PI
  }

  // ---------------------------------------------------------------------------
  // Phase accumulator

  /** The correction after an advance: one turn up at or below -2pi, one turn down at or above 2pi. */
  function Wrap(p: real): real
  {
    if p <= -TwoPi then p + TwoPi else if p >= TwoPi then p - TwoPi else p
  }

  /**
   * `phase += step` followed by the wrap. A phase inside (-2pi, 2pi) stays
   * inside for any step in [0, 2pi), and a phase in [0, 2pi) stays in [0, 2pi).
   */
  function Advance(p: real, step: real): (q: real)
    ensures -TwoPi < p < TwoPi && 0.0 <= step < TwoPi ==> -TwoPi < q < TwoPi
    ensures 0.0 <= p < TwoPi && 0.0 <= step < TwoPi ==> 0.0 <= q < TwoPi
    ensures q == p + step || q == p + step - TwoPi || q == p + step + TwoPi
  {
    Wrap(p + step)
  }

  /** The phase after `n` samples. */
  function PhaseAfter(p: real, step: real, n: nat): real
  {
    if n == 0 then p else Advance(PhaseAfter(p, step, n - 1), step)
  }

  /** The wrap invariant: a phase that starts inside (-2pi, 2pi) is inside after every sample. */
  lemma {:induction false} PhaseAfterInRange(p: real, step: real, n: nat)
    requires -TwoPi < p < TwoPi && 0.0 <= step < TwoPi
    ensures -TwoPi < PhaseAfter(p, step, n) < TwoPi
  {
    if n > 0 {
      PhaseAfterInRange(p, step, n - 1);
    }
  }

  /** A phase that starts in [0, 2pi) stays in [0, 2pi). */
  lemma {:induction false} PhaseAfterNonNegative(p: real, step: real, n: nat)
    requires 0.0 <= p < TwoPi && 0.0 <= step < TwoPi
    ensures 0.0 <= PhaseAfter(p, step, n) < TwoPi
  {
    if n > 0 {
      PhaseAfterNonNegative(p, step, n - 1);
    }
  }

  /** Advancing `m` samples and then `n` more is advancing `m + n` samples: the stream has no seams. */
  lemma {:induction false} PhaseAfterCompose(p: real, step: real, m: nat, n: nat)
    ensures PhaseAfter(PhaseAfter(p, step, m), step, n) == PhaseAfter(p, step, m + n)
  {
    if n > 0 {
      PhaseAfterCompose(p, step, m, n - 1);
    }
  }

  /** The phase `n` samples on if nothing were ever wrapped. */
  function Unwrapped(p: real, step: real, n: nat): real
  {
    p + (n as real) * step
  }

  /** `n` steps are `n - 1` steps and one more, and non-negative steps never go backwards. */
  lemma StepsSplit(p: real, step: real, n: nat)
    requires n > 0
    ensures Unwrapped(p, step, n) == Unwrapped(p, step, n - 1) + step
    ensures 0.0 <= step ==> p <= Unwrapped(p, step, n - 1)
  {
    assert (n as real) * step == ((n - 1) as real) * step + step;
  }

  /** The turns one wrap takes off: one at or above 2pi, minus one at or below -2pi. */
  function WrapTurn(q: real): int
  {
    if q <= -TwoPi then -1 else if q >= TwoPi then 1 else 0
  }

  /** The net number of turns the wraps have taken off during `n` samples. */
  function Turns(p: real, step: real, n: nat): int
  {
    if n == 0 then 0
    else Turns(p, step, n - 1) + WrapTurn(PhaseAfter(p, step, n - 1) + step)
  }

  /** The amount the wraps have taken off during `n` samples, as a sum of signed turns. */
  function Correction(p: real, step: real, n: nat): real
  {
    if n == 0 then 0.0
    else
      var q := PhaseAfter(p, step, n - 1) + step;
      Correction(p, step, n - 1) + (if q <= -TwoPi then -TwoPi else if q >= TwoPi then TwoPi else 0.0)
  }

  /** Helper for `PhaseAfterWholeTurns`: the wrapped phase is the unwrapped sum less the correction. */
  lemma {:induction false} PhaseAfterCorrected(p: real, step: real, n: nat)
    ensures PhaseAfter(p, step, n) == Unwrapped(p, step, n) - Correction(p, step, n)
  {
    if n > 0 {
      PhaseAfterCorrected(p, step, n - 1);
      StepsSplit(p, step, n);
    }
  }

  /** Helper for `PhaseAfterWholeTurns`: the correction is a whole number of turns. */
  lemma {:induction false} CorrectionIsTurns(p: real, step: real, n: nat)
    ensures Correction(p, step, n) == (Turns(p, step, n) as real) * TwoPi
  {
    if n > 0 {
      CorrectionIsTurns(p, step, n - 1);
      var t, c := Turns(p, step, n - 1), WrapTurn(PhaseAfter(p, step, n - 1) + step);
      assert ((t + c) as real) * TwoPi == (t as real) * TwoPi + (c as real) * TwoPi;
    }
  }

  /**
   * The wrapped phase differs from the unwrapped sum `p + n * step` by whole
   * turns only, so every waveform sees the phase it would see without wrapping.
   */
  lemma PhaseAfterWholeTurns(p: real, step: real, n: nat)
    ensures PhaseAfter(p, step, n) == Unwrapped(p, step, n) - (Turns(p, step, n) as real) * TwoPi
  {
    PhaseAfterCorrected(p, step, n);
    CorrectionIsTurns(p, step, n);
  }

  /** Within the first turn from a non-negative start nothing is wrapped. */
  lemma {:induction false} FirstTurnUnwrapped(p: real, step: real, n: nat)
    requires 0.0 <= p && 0.0 <= step
    requires Unwrapped(p, step, n) < TwoPi
    ensures PhaseAfter(p, step, n) == Unwrapped(p, step, n)
  {
    if n > 0 {
      StepsSplit(p, step, n);
      FirstTurnUnwrapped(p, step, n - 1);
    }
  }

  // ---------------------------------------------------------------------------
  // Square and triangle evaluators

  /** A square oscillator's contribution: `+amp` before the duty threshold, `-amp` from it on. */
  function SquareValue(theta: real, d: real, amp: real): (v: real)
    ensures v == amp || v == -amp
    ensures amp != 0.0 ==> (v == amp <==> theta < d)
  {
    if theta < d then amp else -amp
  }

  /**
   * Over the first turn of a square oscillator that starts at phase `p >= 0`,
   * sample `n` is high exactly when the unwrapped phase `p + n * step` is below
   * the duty threshold: the duty cycle is the fraction of the turn spent high.
   */
  lemma SquareHighBeforeThreshold(p: real, step: real, n: nat, d: real, amp: real)
    requires 0.0 <= p && 0.0 <= step && 0.0 < amp
    requires Unwrapped(p, step, n) < TwoPi
    ensures SquareValue(PhaseAfter(p, step, n), d, amp) == amp <==> Unwrapped(p, step, n) < d
    ensures SquareValue(PhaseAfter(p, step, n), d, amp) == -amp <==> d <= Unwrapped(p, step, n)
  {
    FirstTurnUnwrapped(p, step, n);
  }

  /** The triangle formula divides by `d` below the threshold and by `2pi - d` above it. */
  predicate TriangleDefined(d: real)
  {
    d != 0.0 && d != TwoPi
  }

  /** The rising ramp, from `-amp` at phase 0 to `+amp` at phase `d`. */
  function TriangleRise(theta: real, d: real, amp: real): real
    requires d != 0.0
  {
    amp * (-1.0 + 2.0 * theta / d)
  }

  /** The falling ramp, subtracted from the sum: `+amp` at phase `d` down to `-amp` at 2pi. */
  function TriangleFall(theta: real, d: real, amp: real): real
    requires d != TwoPi
  {
    -(amp * (-1.0 + 2.0 * (theta - d) / (TwoPi - d)))
  }

  /** A triangle oscillator's contribution at phase `theta`. */
  function TriangleValue(theta: real, d: real, amp: real): real
    requires TriangleDefined(d)
  {
    if theta < d then TriangleRise(theta, d, amp) else TriangleFall(theta, d, amp)
  }

  /**
   * The triangle's corners: `-amp` at phase 0, `+amp` at the threshold, where
   * the rising ramp meets the falling one, and the falling ramp ends at 2pi on
   * the value phase 0 starts from, so the wave is continuous across the wrap.
   */
  lemma TriangleCorners(d: real, amp: real)
    requires 0.0 < d < TwoPi
    ensures TriangleValue(0.0, d, amp) == -amp
    ensures TriangleRise(d, d, amp) == amp && TriangleValue(d, d, amp) == amp
    ensures TriangleFall(TwoPi, d, amp) == TriangleValue(0.0, d, amp)
  {
    assert 2.0 * d / d == 2.0;
    assert 2.0 * (TwoPi - d) / (TwoPi - d) == 2.0;
  }

  /** `amp * x` lies in [-amp, amp] when `x` does in [-1, 1]. */
  lemma ScaledUnit(amp: real, x: real)
    requires 0.0 <= amp && -1.0 <= x <= 1.0
    ensures -amp <= amp * x <= amp
  {
    assert amp * x - amp == amp * (x - 1.0);
    assert amp * x + amp == amp * (x + 1.0);
  }

  /** A ratio of a non-negative number to a larger one lies in [0, 1). */
  lemma RatioBelowOne(x: real, y: real)
    requires 0.0 <= x < y
    ensures 0.0 <= x / y < 1.0
  {
  }

  /** Over one turn the triangle stays between its trough `-amp` and its peak `+amp`. */
  lemma TriangleBounded(theta: real, d: real, amp: real)
    requires 0.0 < d < TwoPi && 0.0 <= theta < TwoPi && 0.0 <= amp
    ensures -amp <= TriangleValue(theta, d, amp) <= amp
  {
    if theta < d {
      var t := theta / d;
      RatioBelowOne(theta, d);
      assert 2.0 * theta / d == 2.0 * t;
      ScaledUnit(amp, -1.0 + 2.0 * t);
    } else {
      var t := (theta - d) / (TwoPi - d);
      RatioBelowOne(theta - d, TwoPi - d);
      assert 2.0 * (theta - d) / (TwoPi - d) == 2.0 * t;
      ScaledUnit(amp, -1.0 + 2.0 * t);
    }
  }

  /** The triangle rises below the threshold and falls from it to the end of the turn. */
  lemma TriangleMonotone(t1: real, t2: real, d: real, amp: real)
    requires 0.0 < d < TwoPi && 0.0 <= amp && t1 <= t2
    ensures t2 < d ==> TriangleValue(t1, d, amp) <= TriangleValue(t2, d, amp)
    ensures d <= t1 ==> TriangleValue(t2, d, amp) <= TriangleValue(t1, d, amp)
  {
    if t2 < d {
      RampStep(amp, t1, t2, d);
      Growth(amp, t2 - t1, d);
    }
    if d <= t1 {
      RampStep(amp, t1 - d, t2 - d, TwoPi - d);
      assert (t2 - d) - (t1 - d) == t2 - t1;
      Growth(amp, t2 - t1, TwoPi - d);
    }
  }

  /** Helper for `TriangleMonotone`: the rise of a ramp between two phases. */
  lemma RampStep(amp: real, x: real, y: real, len: real)
    requires len != 0.0
    ensures amp * (-1.0 + 2.0 * y / len) - amp * (-1.0 + 2.0 * x / len) == amp * (2.0 * (y - x) / len)
  {
    calc {
      amp * (-1.0 + 2.0 * y / len) - amp * (-1.0 + 2.0 * x / len);
      amp * ((-1.0 + 2.0 * y / len) - (-1.0 + 2.0 * x / len));
      { assert (-1.0 + 2.0 * y / len) - (-1.0 + 2.0 * x / len) == 2.0 * (y - x) / len; }
      amp * (2.0 * (y - x) / len);
    }
  }

  /** Helper for `TriangleMonotone`: a ramp's rise over a non-negative span is non-negative. */
  lemma Growth(amp: real, span: real, len: real)
    requires 0.0 <= amp && 0.0 <= span && 0.0 < len
    ensures 0.0 <= amp * (2.0 * span / len)
  {
    assert 0.0 <= 2.0 * span / len;
  }

  // ---------------------------------------------------------------------------
  // Sine rotor

  /** A sine oscillator's contribution: the rotor's real part scaled by the amplitude. */
  function SineValue(rotor: Complex, amp: real): (v: real)
    ensures NormSq(rotor) == 1.0 && 0.0 <= amp ==> -amp <= v <= amp
  {
    UnitRealPartScaled(rotor, amp);
    rotor.re * amp
  }

  /** Helper for `SineValue`'s bound. */
  lemma UnitRealPartScaled(rotor: Complex, amp: real)
    ensures NormSq(rotor) == 1.0 && 0.0 <= amp ==> -amp <= rotor.re * amp <= amp
  {
    if NormSq(rotor) == 1.0 && 0.0 <= amp {
      UnitRealPart(rotor);
      ScaledUnit(amp, rotor.re);
    }
  }

  /** The rotor after `n` samples, each multiplying it by the per-sample rotation `diff`. */
  function RotorAfter(r: Complex, diff: Complex, n: nat): Complex
  {
    if n == 0 then r else Mul(RotorAfter(r, diff, n - 1), diff)
  }

  /** Rotating `m` samples and then `n` more is rotating `m + n` samples. */
  lemma {:induction false} RotorAfterCompose(r: Complex, diff: Complex, m: nat, n: nat)
    ensures RotorAfter(RotorAfter(r, diff, m), diff, n) == RotorAfter(r, diff, m + n)
  {
    if n > 0 {
      RotorAfterCompose(r, diff, m, n - 1);
    }
  }

  /** Without rounding, a unit rotation keeps the rotor's magnitude: no drift. */
  lemma {:induction false} RotorKeepsMagnitude(r: Complex, diff: Complex, n: nat)
    requires NormSq(diff) == 1.0
    ensures NormSq(RotorAfter(r, diff, n)) == NormSq(r)
  {
    if n > 0 {
      RotorKeepsMagnitude(r, diff, n - 1);
      NormSqMul(RotorAfter(r, diff, n - 1), diff);
    }
  }

  /**
   * Rotor multiplication is additive phase accumulation: if `cis` maps angle
   * sums to products (as `exp(i * x)` does), the rotor started at `cis(a)` and
   * rotated by `cis(step)` for `n` samples is `cis(a + n * step)`.
   */
  lemma {:induction false} RotorIsPhase(cis: real -> Complex, a: real, step: real, n: nat)
    requires forall x, y :: Mul(cis(x), cis(y)) == cis(x + y)
    ensures RotorAfter(cis(a), cis(step), n) == cis(Unwrapped(a, step, n))
  {
    if n > 0 {
      RotorIsPhase(cis, a, step, n - 1);
      var before := Unwrapped(a, step, n - 1);
      assert Mul(cis(before), cis(step)) == cis(before + step);
      StepsSplit(a, step, n);
    }
  }
}
