/** The variable-slope saw with an adjustable notch of `src/oscillator/variable_saw.rs`.
    The waveform rises from 0 to the pulse width `pw`, then holds at the notch level
    (notch mix) or falls back to 0 (triangle mix); its two discontinuities, at `pw` and at
    the wrap, are smoothed with BLEP corrections split over this and the next sample. */
module VariableSaw {

  import opened Util
  import opened Blep

  const NOTCH_DEPTH: real := 0.2

  datatype SawState = SawState(pw: real, waveshape: real, phase: real, high: bool,
                               nextSample: real, previousPw: real)

  /** `Default`. */
  const DEFAULT_SAW: SawState := SawState(0.5, 0.0, 0.0, false, 0.0, 0.5)

  /** The pulse width `prepare_block` keeps: 1/2 at or above a quarter of the sample
      rate, otherwise the requested width kept at least two increments from either end.
      The branch is what makes the clamp's bounds ordered. */
  function PreparedPw(pw: real, phaseDelta: real): (r: real)
    ensures phaseDelta >= 0.25 ==> r == 0.5
    ensures phaseDelta < 0.25 ==> 2.0 * phaseDelta <= r <= 1.0 - 2.0 * phaseDelta
    ensures phaseDelta < 0.25 && phaseDelta * 2.0 <= pw <= 1.0 - 2.0 * phaseDelta ==> r == pw
  {
    if phaseDelta >= 0.25 then 0.5
    else Clamp(pw, phaseDelta * 2.0, 1.0 - 2.0 * phaseDelta)
  }

  /** For a positive increment the kept width is strictly inside (0, 1), so both
      slopes are defined. */
  lemma PreparedPwInside(pw: real, phaseDelta: real)
    requires phaseDelta > 0.0
    ensures 0.0 < PreparedPw(pw, phaseDelta) < 1.0
  {
  }

  /** `compute_naive_sample`: notch saw and triangle mixed by the two amounts. */
  function NaiveSample(phase: real, pw: real, slopeUp: real, slopeDown: real,
                       triangleAmount: real, notchAmount: real): real
  {
    var notchSaw := if phase < pw then phase else 1.0 + NOTCH_DEPTH;
    var triangle := if phase < pw then phase * slopeUp else 1.0 - (phase - pw) * slopeDown;
    notchSaw * notchAmount + triangle * triangleAmount
  }

  /** The naive sample with the slopes and amounts `process` passes. */
  function Naive(phase: real, pw: real, waveshape: real): real
    requires pw != 0.0 && pw != 1.0
  {
    NaiveSample(phase, pw, 1.0 / pw, 1.0 / (1.0 - pw), waveshape, 1.0 - waveshape)
  }

  /** Waveshape 0 is the pure notch saw: the phase below `pw`, the notch level above. */
  lemma NaiveNotchSaw(phase: real, pw: real)
    requires pw != 0.0 && pw != 1.0
    ensures Naive(phase, pw, 0.0) == if phase < pw then phase else 1.0 + NOTCH_DEPTH
  {
  }

  /** Waveshape 1 is the pure triangle: it rises to 1 at `pw` and falls back to 0 at 1. */
  lemma {:induction false} NaiveTriangle(phase: real, pw: real)
    requires 0.0 < pw < 1.0
    ensures phase < pw ==> Naive(phase, pw, 1.0) == phase / pw
    ensures Naive(pw, pw, 1.0) == 1.0
    ensures Naive(1.0, pw, 1.0) == 0.0
    ensures 0.0 <= phase <= 1.0 ==> 0.0 <= Naive(phase, pw, 1.0) <= 1.0
  {
    var down := 1.0 / (1.0 - pw);
    assert (1.0 - pw) * down == 1.0;
    if phase < pw {
      assert phase * (1.0 / pw) == phase / pw;
      if 0.0 <= phase {
        assert phase / pw < 1.0 by {
          assert (phase / pw) * pw == phase;
        }
      }
    } else if phase <= 1.0 {
      assert 0.0 <= (phase - pw) * down <= (1.0 - pw) * down;
    }
  }

  /** Where a discontinuity falls in the call, if any: the rising edge at `pw` (the
      phase is not wrapped in that call), the wrap at 1, or neither. */
  datatype SawEdge = SawEdge(phase: real, high: bool, bleps: Option<Bleps>)

  predicate RisingEdge(s: SawState, phase: real)
  {
    !s.high && phase >= s.pw
  }

  /** The divisions `process` performs are by non-zero values. */
  predicate SawDefined(s: SawState, frequency: real, sampleRate: real)
  {
    sampleRate != 0.0 && s.pw != 0.0 && s.pw != 1.0 &&
    var phaseDelta := frequency / sampleRate;
    var phase := s.phase + phaseDelta;
    (RisingEdge(s, phase) ==> s.previousPw - s.pw + phaseDelta != 0.0) &&
    (!RisingEdge(s, phase) && phase >= 1.0 ==> phaseDelta != 0.0)
  }

  /** The halves of an edge's correction for this and the next sample; none without
      an edge. */
  function ThisHalf(e: SawEdge): real
  {
    if e.bleps.Some? then ThisCorrection(e.bleps.value) else 0.0
  }

  function NextHalf(e: SawEdge): real
  {
    if e.bleps.Some? then NextCorrection(e.bleps.value) else 0.0
  }

  /** The change of slope at either edge, in units of one sample, for the triangle
      part of the mix. */
  function TriangleStep(pw: real, phaseDelta: real, triangleAmount: real): real
    requires pw != 0.0 && pw != 1.0
  {
    var slopeUp := 1.0 / pw;
    var slopeDown := 1.0 / (1.0 - pw);
    (slopeUp + slopeDown) * phaseDelta * triangleAmount
  }

  /** The correction at the rising edge: a notch step from the ramp's top and the
      position of `pw` within the increment (which also spans any change of `pw`). */
  function RiseBleps(s: SawState, phaseDelta: real, phase: real): Bleps
    requires s.pw != 0.0 && s.pw != 1.0 && s.previousPw - s.pw + phaseDelta != 0.0
  {
    Bleps((NOTCH_DEPTH + 1.0 - s.pw) * (1.0 - s.waveshape), TriangleStep(s.pw, phaseDelta, s.waveshape),
          (phase - s.pw) / (s.previousPw - s.pw + phaseDelta))
  }

  /** The correction at the wrap: the full notch step and the position of 1 within
      the increment. */
  function WrapBleps(s: SawState, phaseDelta: real, phase: real): Bleps
    requires s.pw != 0.0 && s.pw != 1.0 && phaseDelta != 0.0
  {
    Bleps((NOTCH_DEPTH + 1.0) * (1.0 - s.waveshape), TriangleStep(s.pw, phaseDelta, s.waveshape),
          (phase - 1.0) / phaseDelta)
  }

  /** The phase reached in one call: past `pw` while low the square-edge becomes high
      (and the phase is not wrapped in that call); otherwise past 1 it wraps and
      becomes low. */
  function EdgeStep(s: SawState, phaseDelta: real, phase: real): (e: SawEdge)
    requires s.pw != 0.0 && s.pw != 1.0
    requires RisingEdge(s, phase) ==> s.previousPw - s.pw + phaseDelta != 0.0
    requires !RisingEdge(s, phase) && phase >= 1.0 ==> phaseDelta != 0.0
    ensures RisingEdge(s, phase) ==> e == SawEdge(phase, true, Some(RiseBleps(s, phaseDelta, phase)))
    ensures !RisingEdge(s, phase) && phase >= 1.0 ==>
      e == SawEdge(phase - 1.0, false, Some(WrapBleps(s, phaseDelta, phase)))
    ensures !RisingEdge(s, phase) && phase < 1.0 ==> e == SawEdge(phase, s.high, None)
  {
    if RisingEdge(s, phase) then SawEdge(phase, true, Some(RiseBleps(s, phaseDelta, phase)))
    else if phase >= 1.0 then SawEdge(phase - 1.0, false, Some(WrapBleps(s, phaseDelta, phase)))
    else SawEdge(phase, s.high, None)
  }

  /** The sample this call emits before scaling: the carried sample plus this half of
      the BLEP correction. */
  function ThisSample(s: SawState, frequency: real, sampleRate: real): (r: real)
    requires SawDefined(s, frequency, sampleRate)
    ensures var phase := s.phase + frequency / sampleRate;
      !RisingEdge(s, phase) && phase < 1.0 ==> r == s.nextSample
  {
    var phaseDelta := frequency / sampleRate;
    s.nextSample + ThisHalf(EdgeStep(s, phaseDelta, s.phase + phaseDelta))
  }

  /** One call of `process`. The next-sample carry is the naive sample at the new phase:
      the next halves of the corrections are computed and then overwritten. */
  function SawStep(s: SawState, frequency: real, sampleRate: real): (r: (SawState, real))
    requires SawDefined(s, frequency, sampleRate)
    ensures var phase := s.phase + frequency / sampleRate;
      (RisingEdge(s, phase) ==> r.0.high && r.0.phase == phase) &&
      (!RisingEdge(s, phase) && phase >= 1.0 ==> !r.0.high && r.0.phase == phase - 1.0) &&
      (!RisingEdge(s, phase) && phase < 1.0 ==> r.0.high == s.high && r.0.phase == phase)
    ensures r.0.nextSample == Naive(r.0.phase, s.pw, s.waveshape)
    ensures r.0.pw == s.pw && r.0.waveshape == s.waveshape && r.0.previousPw == s.pw
    ensures r.1 == (2.0 * ThisSample(s, frequency, sampleRate) - 1.0) / (1.0 + NOTCH_DEPTH)
  {
    var phaseDelta := frequency / sampleRate;
    var edge := EdgeStep(s, phaseDelta, s.phase + phaseDelta);
    var next := Naive(edge.phase, s.pw, s.waveshape);
    (SawState(s.pw, s.waveshape, edge.phase, edge.high, next, s.pw),
     (2.0 * (s.nextSample + ThisHalf(edge)) - 1.0) / (1.0 + NOTCH_DEPTH))
  }

  /** With a fixed increment below a quarter of the sample rate and a width kept by
      `prepare_block`, the phase stays in [0, 1), and below `pw` while not high. */
  predicate SawPhaseValid(s: SawState)
  {
    0.0 <= s.phase < 1.0 && (!s.high ==> s.phase < s.pw)
  }

  lemma {:induction false} SawStepKeepsPhase(s: SawState, frequency: real, sampleRate: real)
    requires SawDefined(s, frequency, sampleRate)
    requires var pd := frequency / sampleRate; 0.0 < pd < 0.25 && 2.0 * pd <= s.pw <= 1.0 - 2.0 * pd
    requires SawPhaseValid(s)
    ensures SawPhaseValid(SawStep(s, frequency, sampleRate).0)
  {
  }

  /** Once `previous_pw` has caught up with `pw`, every division is defined. */
  lemma SteadySawDefined(s: SawState, frequency: real, sampleRate: real)
    requires sampleRate != 0.0 && 0.0 < frequency / sampleRate && s.previousPw == s.pw && 0.0 < s.pw < 1.0
    ensures SawDefined(s, frequency, sampleRate)
  {
  }

  /** In that steady state each discontinuity is located inside the sample period, so
      the BLEP kernels are applied within [0, 1]. */
  lemma {:induction false} EdgePositionInPeriod(s: SawState, frequency: real, sampleRate: real)
    requires sampleRate != 0.0 && 0.0 < frequency / sampleRate && s.previousPw == s.pw && 0.0 < s.pw < 1.0
    requires SawPhaseValid(s)
    ensures var pd := frequency / sampleRate;
      var phase := s.phase + pd;
      (RisingEdge(s, phase) ==> 0.0 <= (phase - s.pw) / pd < 1.0) &&
      (!RisingEdge(s, phase) && phase >= 1.0 ==> 0.0 <= (phase - 1.0) / pd < 1.0)
  {
    var pd := frequency / sampleRate;
    var phase := s.phase + pd;
    if RisingEdge(s, phase) {
      QuotientBelowOne(phase - s.pw, pd);
    } else if phase >= 1.0 {
      QuotientBelowOne(phase - 1.0, pd);
    }
  }

  /** `VariableSawOscillator`. */
  class VariableSawOscillator {
    var pw: real
    var waveshape: real
    var phase: real
    var high: bool
    var nextSample: real
    var previousPw: real

    function State(): SawState
      reads this
    {
      SawState(pw, waveshape, phase, high, nextSample, previousPw)
    }

    constructor Default()
      ensures State() == DEFAULT_SAW
    {
      phase := 0.0;
      nextSample := 0.0;
      previousPw := 0.5;
      high := false;
      pw := 0.5;
      waveshape := 0.0;
    }

    /** `prepare_block`: keep the width away from the ends, store the waveshape. */
    method PrepareBlock(pw: real, waveshape: real, frequency: real, sampleRate: real)
      requires sampleRate != 0.0
      modifies this
      ensures State() == old(State()).(pw := PreparedPw(pw, frequency / sampleRate), waveshape := waveshape)
    {
      var phaseDelta := frequency / sampleRate;
      var pw' := if phaseDelta >= 0.25 then 0.5 else Clamp(pw, phaseDelta * 2.0, 1.0 - 2.0 * phaseDelta);
      this.pw := pw';
      this.waveshape := waveshape;
    }

    /** The fields and the edge one call of `process` reaches from `s`, with the
        carried sample moved to `thisSample` and then corrected. */
    ghost predicate Advanced(s: SawState, phaseDelta: real, thisSample: real, thisSample': real,
                             oldNextSample: real)
      requires s.pw != 0.0 && s.pw != 1.0
      requires RisingEdge(s, s.phase + phaseDelta) ==> s.previousPw - s.pw + phaseDelta != 0.0
      requires !RisingEdge(s, s.phase + phaseDelta) && s.phase + phaseDelta >= 1.0 ==> phaseDelta != 0.0
      reads this
    {
      var e := EdgeStep(s, phaseDelta, s.phase + phaseDelta);
      phase == e.phase && high == e.high && thisSample' == thisSample + ThisHalf(e) &&
      nextSample == oldNextSample + NextHalf(e) &&
      pw == s.pw && waveshape == s.waveshape && previousPw == s.previousPw
    }

    /** The phase advance of `process` and the BLEP corrections at an edge crossed on
        the way; the carried sample has already been moved to `thisSample`, so the
        state at the start of the call is `s` up to the carry. */
    method AdvancePhase(ghost s: SawState, thisSample: real, phaseDelta: real) returns (thisSample': real)
      requires s.pw == pw && s.waveshape == waveshape && s.phase == phase && s.high == high
      requires s.previousPw == previousPw
      requires pw != 0.0 && pw != 1.0
      requires RisingEdge(s, phase + phaseDelta) ==> previousPw - pw + phaseDelta != 0.0
      requires !RisingEdge(s, phase + phaseDelta) && phase + phaseDelta >= 1.0 ==> phaseDelta != 0.0
      modifies this
      ensures Advanced(s, phaseDelta, thisSample, thisSample', old(nextSample))
    {
      thisSample' := thisSample;
      var triangleAmount := waveshape;
      var notchAmount := 1.0 - waveshape;

      var slopeUp := 1.0 / pw;
      var slopeDown := 1.0 / (1.0 - pw);

      phase := phase + phaseDelta;

      if !high && phase >= pw {
        thisSample' := Rise(s, thisSample', phaseDelta, slopeUp, slopeDown, triangleAmount, notchAmount);
      } else if phase >= 1.0 {
        thisSample' := Wrap(s, thisSample', phaseDelta, slopeUp, slopeDown, triangleAmount, notchAmount);
      }
    }

    /** The rising-edge branch of `process`. */
    method Rise(ghost s: SawState, thisSample: real, phaseDelta: real, slopeUp: real, slopeDown: real,
                triangleAmount: real, notchAmount: real) returns (thisSample': real)
      requires s.pw == pw && s.waveshape == waveshape && s.phase + phaseDelta == phase && s.high == high
      requires s.previousPw == previousPw && pw != 0.0 && pw != 1.0
      requires slopeUp == 1.0 / pw && slopeDown == 1.0 / (1.0 - pw)
      requires triangleAmount == waveshape && notchAmount == 1.0 - waveshape
      requires RisingEdge(s, phase) && previousPw - pw + phaseDelta != 0.0
      modifies this
      ensures Advanced(s, phaseDelta, thisSample, thisSample', old(nextSample))
    {
      var triangleStep := (slopeUp + slopeDown) * phaseDelta * triangleAmount;
      var notch := (NOTCH_DEPTH + 1.0 - pw) * notchAmount;
      var t := (phase - pw) / (previousPw - pw + phaseDelta);
      assert Bleps(notch, triangleStep, t) == RiseBleps(s, phaseDelta, s.phase + phaseDelta);

      thisSample', nextSample := ApplyBleps(thisSample, nextSample, notch, triangleStep, t);

      high := true;
    }

    /** The wrap branch of `process`. */
    method Wrap(ghost s: SawState, thisSample: real, phaseDelta: real, slopeUp: real, slopeDown: real,
                triangleAmount: real, notchAmount: real) returns (thisSample': real)
      requires s.pw == pw && s.waveshape == waveshape && s.phase + phaseDelta == phase && s.high == high
      requires s.previousPw == previousPw && pw != 0.0 && pw != 1.0
      requires slopeUp == 1.0 / pw && slopeDown == 1.0 / (1.0 - pw)
      requires triangleAmount == waveshape && notchAmount == 1.0 - waveshape
      requires !RisingEdge(s, phase) && phase >= 1.0 && phaseDelta != 0.0
      modifies this
      ensures Advanced(s, phaseDelta, thisSample, thisSample', old(nextSample))
    {
      phase := phase - 1.0;

      var triangleStep := (slopeUp + slopeDown) * phaseDelta * triangleAmount;
      var notch := (NOTCH_DEPTH + 1.0) * notchAmount;
      var t := phase / phaseDelta;
      assert Bleps(notch, triangleStep, t) == WrapBleps(s, phaseDelta, s.phase + phaseDelta);

      thisSample', nextSample := ApplyBleps(thisSample, nextSample, notch, triangleStep, t);

      high := false;
    }

    /** `process`: emit the carried sample plus this half of any edge correction, then
        carry the naive sample at the new phase (overwriting the next half). */
    method Process(frequency: real, sampleRate: real) returns (output: real)
      requires SawDefined(State(), frequency, sampleRate)
      modifies this
      ensures (State(), output) == SawStep(old(State()), frequency, sampleRate)
    {
      ghost var before := State();
      var thisSample := nextSample;
      nextSample := 0.0;

      var phaseDelta := frequency / sampleRate;
      var triangleAmount := waveshape;
      var notchAmount := 1.0 - waveshape;

      var slopeUp := 1.0 / pw;
      var slopeDown := 1.0 / (1.0 - pw);

      ghost var edge := EdgeStep(before, phaseDelta, before.phase + phaseDelta);
      thisSample := AdvancePhase(before, thisSample, phaseDelta);

      nextSample := NaiveSample(phase, pw, slopeUp, slopeDown, triangleAmount, notchAmount);
      previousPw := pw;

      output := (2.0 * thisSample - 1.0) / (1.0 + NOTCH_DEPTH);
      assert thisSample == before.nextSample + ThisHalf(edge);
      assert nextSample == Naive(edge.phase, before.pw, before.waveshape);
      assert State() == SawStep(before, frequency, sampleRate).0;
    }
  }
}
