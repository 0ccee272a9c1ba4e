/** Band-limited step (BLEP) correction kernels of `src/oscillator/mod.rs`.
    `t` is the position, within the current sample period, of a discontinuity:
    a step of size `d` is band-limited by adding `d * ThisBlep(t)` to the current
    sample and `d * NextBlep(t)` to the following one; a slope change uses the
    integrated kernels the same way. */
module Blep {

  import opened Util

  function ThisBlep(t: real): real
  {
    0.5 * t * t
  }

  function NextBlep(t: real): real
  {
    var u := 1.0 - t;
    0.5 * u * u
  }

  function NextIntegratedBlep(t: real): real
  {
    var t1 := 0.5 * t;
    var t2 := t1 * t1;
    var t4 := t2 * t2;
    0.1875 - t1 + 1.5 * t2 - t4
  }

  function ThisIntegratedBlep(t: real): real
  {
    NextIntegratedBlep(1.0 - t)
  }

  /** The integrated kernel is the quartic (1 - t)^3 (t + 3) / 16: it meets 0 at t = 1
      with a triple zero, so the corrected slope change joins smoothly. */
  lemma IntegratedKernelFactors(t: real)
    ensures NextIntegratedBlep(t) * 16.0 == (1.0 - t) * (1.0 - t) * (1.0 - t) * (t + 3.0)
  {
    var u := 1.0 - t;
    assert u * u * u * (t + 3.0) == 3.0 - 8.0 * t + 6.0 * t * t - t * t * t * t;
  }

  /** The two step kernels are mirror images of each other around t = 1/2. */
  lemma StepKernelsMirror(t: real)
    ensures ThisBlep(t) == NextBlep(1.0 - t)
    ensures NextBlep(t) == ThisBlep(1.0 - t)
  {
  }

  lemma IntegratedKernelsMirror(t: real)
    ensures ThisIntegratedBlep(t) == NextIntegratedBlep(1.0 - t)
    ensures NextIntegratedBlep(t) == ThisIntegratedBlep(1.0 - t)
  {
  }

  lemma StepKernelEndpoints()
    ensures ThisBlep(0.0) == 0.0 && ThisBlep(1.0) == 0.5
    ensures NextBlep(0.0) == 0.5 && NextBlep(1.0) == 0.0
  {
  }

  /** For a discontinuity inside the sample period both step kernels lie in [0, 1/2]. */
  lemma {:induction false} StepKernelsBounded(t: real)
    requires 0.0 <= t <= 1.0
    ensures 0.0 <= ThisBlep(t) <= 0.5
    ensures 0.0 <= NextBlep(t) <= 0.5
  {
    assert 0.0 <= t * t <= t by { assert t * t <= t * 1.0; }
    var u := 1.0 - t;
    assert 0.0 <= u * u <= u by { assert u * u <= u * 1.0; }
  }

  lemma IntegratedKernelEndpoints()
    ensures NextIntegratedBlep(0.0) == 0.1875 && NextIntegratedBlep(1.0) == 0.0
    ensures ThisIntegratedBlep(1.0) == 0.1875 && ThisIntegratedBlep(0.0) == 0.0
  {
  }

  /** The integrated kernel never increases on [0, 1]:
      16 (f(s) - f(t)) = (t - s) (8 - 6u + u (s^2 + t^2)) with u = s + t, and
      8 - 6u + u (s^2 + t^2) >= 8 - 6u + u^3 / 2 = (u - 2)^2 (u + 4) / 2 >= 0. */
  lemma {:induction false} NextIntegratedBlepNonIncreasing(s: real, t: real)
    requires 0.0 <= s <= t <= 1.0
    ensures NextIntegratedBlep(t) <= NextIntegratedBlep(s)
  {
    var u := s + t;
    var q := s * s + t * t;
    assert 2.0 * q - u * u == (t - s) * (t - s);
    assert (t - s) * (t - s) >= 0.0;
    assert 2.0 * q >= u * u;
    assert u * (2.0 * q) >= u * (u * u) by {
      assert u >= 0.0;
      assert u * (2.0 * q - u * u) >= 0.0;
    }
    var g := 8.0 - 6.0 * u + u * q;
    assert 2.0 * g >= 16.0 - 12.0 * u + u * u * u;
    assert 16.0 - 12.0 * u + u * u * u == (u - 2.0) * (u - 2.0) * (u + 4.0);
    assert (u - 2.0) * (u - 2.0) * (u + 4.0) >= 0.0 by {
      SquareNonNegative(u - 2.0);
      ProductNonNegative((u - 2.0) * (u - 2.0), u + 4.0);
    }
    assert g >= 0.0;
    assert 16.0 * (NextIntegratedBlep(s) - NextIntegratedBlep(t)) == (t - s) * g;
    assert (t - s) * g >= 0.0;
  }

  /** Hence its values on [0, 1] lie between its endpoint values 0 and 3/16. */
  lemma {:induction false} NextIntegratedBlepBounded(t: real)
    requires 0.0 <= t <= 1.0
    ensures 0.0 <= NextIntegratedBlep(t) <= 0.1875
  {
    NextIntegratedBlepNonIncreasing(0.0, t);
    NextIntegratedBlepNonIncreasing(t, 1.0);
    var lo, hi, mid := NextIntegratedBlep(1.0), NextIntegratedBlep(0.0), NextIntegratedBlep(t);
    assert lo == 0.0 && hi == 0.1875;
    assert lo <= mid <= hi;
  }

  lemma {:induction false} ThisIntegratedBlepBounded(t: real)
    requires 0.0 <= t <= 1.0
    ensures 0.0 <= ThisIntegratedBlep(t) <= 0.1875
  {
    NextIntegratedBlepBounded(1.0 - t);
  }

  /** The correction at a discontinuity: a step of the waveform (a BLEP), a change of
      its slope (an integrated BLEP, the slope change in units of one sample) and the
      fraction of the sample since the discontinuity. */
  datatype Bleps = Bleps(step: real, slopeStep: real, t: real)

  /** The half of a correction applied to this sample, and the half carried to the next. */
  function ThisCorrection(b: Bleps): real
  {
    b.step * ThisBlep(b.t) - b.slopeStep * ThisIntegratedBlep(b.t)
  }

  function NextCorrection(b: Bleps): real
  {
    b.step * NextBlep(b.t) - b.slopeStep * NextIntegratedBlep(b.t)
  }

  /** The four updates of one correction: the step as a BLEP and the slope change as
      an integrated BLEP, each split over this and the next sample. */
  method ApplyBleps(thisSample: real, nextSample: real, step: real, slopeStep: real, t: real)
    returns (thisSample': real, nextSample': real)
    ensures thisSample' == thisSample + ThisCorrection(Bleps(step, slopeStep, t))
    ensures nextSample' == nextSample + NextCorrection(Bleps(step, slopeStep, t))
  {
    thisSample' := thisSample + step * ThisBlep(t);
    nextSample' := nextSample + step * NextBlep(t);

    thisSample' := thisSample' - slopeStep * ThisIntegratedBlep(t);
    nextSample' := nextSample' - slopeStep * NextIntegratedBlep(t);
  }
}
