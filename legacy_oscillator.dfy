/** `src/oscillator.rs`, the older single-file copy of the oscillators: a digital
    oscillator, a blend of two of them and the variable saw, with private copies of
    the BLEP kernels. Its classes have the same fields and bodies as the newer
    copies, so each is proved against the same specification functions. */
module LegacyOscillator {

  import opened Util
  import Blep
  import Digital
  import VariableSaw

  const NOTCH_DEPTH: real := 0.2

  /** The private BLEP kernels of this file. */
  function ThisBlepSample(t: real): real
  {
    0.5 * t * t
  }

  function NextBlepSample(t: real): real
  {
    var t := 1.0 - t;
    0.5 * t * t
  }

  function NextIntegratedBlepSample(t: real): real
  {
    var t1 := 0.5 * t;
    var t2 := t1 * t1;
    var t4 := t2 * t2;
    0.1875 - t1 + 1.5 * t2 - t4
  }

  function ThisIntegratedBlepSample(t: real): real
  {
    NextIntegratedBlepSample(1.0 - t)
  }

  /** Each kernel for this sample is the one for the next sample mirrored around 1/2. */
  lemma KernelsMirror(t: real)
    ensures ThisBlepSample(t) == NextBlepSample(1.0 - t)
    ensures ThisIntegratedBlepSample(t) == NextIntegratedBlepSample(1.0 - t)
  {
  }

  /** The private kernels are the shared ones of `src/oscillator/mod.rs`. */
  lemma KernelsAgree(t: real)
    ensures ThisBlepSample(t) == Blep.ThisBlep(t) && NextBlepSample(t) == Blep.NextBlep(t)
    ensures ThisIntegratedBlepSample(t) == Blep.ThisIntegratedBlep(t)
    ensures NextIntegratedBlepSample(t) == Blep.NextIntegratedBlep(t)
  {
  }

  /** The older `DigitalOscillator`. */
  class DigitalOscillator {
    var phase: real
    var shape: Digital.Shape

    function State(): Digital.DigitalState
      reads this
    {
      Digital.DigitalState(phase, shape)
    }

    constructor Default()
      ensures State() == Digital.DigitalState(0.0, Digital.Sine)
    {
      phase := 0.0;
      shape := Digital.Sine;
    }

    constructor New(shape: Digital.Shape)
      ensures State() == Digital.DigitalState(0.0, shape)
    {
      phase := 0.0;
      this.shape := shape;
    }

    method ProcessSine(frequency: real, sampleRate: real, sin: real -> real) returns (sine: real)
      requires sampleRate != 0.0
      modifies this
      ensures sine == sin(old(phase) * Digital.TAU)
      ensures phase == Digital.Advance(old(phase), frequency / sampleRate) && shape == old(shape)
    {
      var phaseDelta := frequency / sampleRate;
      sine := sin(phase * Digital.TAU);
      phase := phase + phaseDelta;
      if phase >= 1.0 {
        phase := phase - 1.0;
      }
    }

    method ProcessSquare(frequency: real, sampleRate: real) returns (square: real)
      requires sampleRate != 0.0
      modifies this
      ensures square == Digital.SquareLevel(old(phase))
      ensures phase == Digital.Advance(old(phase), frequency / sampleRate) && shape == old(shape)
    {
      var phaseDelta := frequency / sampleRate;
      square := if phase >= 0.5 then 0.0 else 1.0;
      phase := phase + phaseDelta;
      if phase >= 1.0 {
        phase := phase - 1.0;
      }
    }

    /** `process`: `None` stands for the `todo!()` panic of saw and triangle. */
    method Process(frequency: real, sampleRate: real, sin: real -> real) returns (output: Option<real>)
      requires sampleRate != 0.0
      modifies this
      ensures var r := Digital.DigitalStep(old(State()), frequency, sampleRate, sin);
        (r.None? ==> output.None? && State() == old(State()))
        && (r.Some? ==> output == Some(r.value.1) && State() == r.value.0)
    {
      match shape {
        case Sine =>
          var v := ProcessSine(frequency, sampleRate, sin);
          output := Some(v);
        case Square =>
          var v := ProcessSquare(frequency, sampleRate);
          output := Some(v);
        case _ =>
          output := None;
      }
    }
  }

  /** The older `BlendOscillator`. */
  class BlendOscillator {
    var shape: real
    const a: DigitalOscillator
    const b: DigitalOscillator

    predicate Valid()
      reads this
    {
      a != b
    }

    constructor Default()
      ensures Valid() && fresh(a) && fresh(b) && shape == 0.5
      ensures a.State() == Digital.DigitalState(0.0, Digital.Sine)
      ensures b.State() == Digital.DigitalState(0.0, Digital.Square)
    {
      shape := 0.5;
      a := new DigitalOscillator.New(Digital.Sine);
      b := new DigitalOscillator.New(Digital.Square);
    }

    /** `process`: both oscillators advance and their outputs are blended. */
    method Process(frequency: real, sampleRate: real, sin: real -> real) returns (output: Option<real>)
      requires Valid() && sampleRate != 0.0
      modifies a, b
      ensures var r := Digital.BlendStep(old(a.State()), old(b.State()), shape, frequency, sampleRate, sin);
        (r.None? ==> output.None?)
        && (r.Some? ==> output == Some(r.value.2) && a.State() == r.value.0 && b.State() == r.value.1)
    {
      ghost var r := Digital.BlendStep(a.State(), b.State(), shape, frequency, sampleRate, sin);
      ghost var ra := Digital.DigitalStep(a.State(), frequency, sampleRate, sin);
      ghost var rb := Digital.DigitalStep(b.State(), frequency, sampleRate, sin);
      var va := a.Process(frequency, sampleRate, sin);
      if va.None? {
        return None;
      }
      var vb := b.Process(frequency, sampleRate, sin);
      if vb.None? {
        return None;
      }
      output := Some((va.value * (1.0 - shape)) + (vb.value * shape));
      assert ra == Some((a.State(), va.value)) && rb == Some((b.State(), vb.value));
      assert output.value == Digital.BlendLevel(va.value, vb.value, shape);
      assert r == Some((a.State(), b.State(), Digital.BlendLevel(va.value, vb.value, shape)));
    }
  }

  /** The older `VariableSawOscillator`. */
  class VariableSawOscillator {
    var pw: real
    var waveshape: real
    var phase: real
    var high: bool
    var nextSample: real
    var previousPw: real

    function State(): VariableSaw.SawState
      reads this
    {
      VariableSaw.SawState(pw, waveshape, phase, high, nextSample, previousPw)
    }

    constructor Default()
      ensures State() == VariableSaw.DEFAULT_SAW
    {
      phase := 0.0;
      nextSample := 0.0;
      previousPw := 0.5;
      high := false;
      pw := 0.5;
      waveshape := 0.0;
    }

    /** `prepare`: the same width clamp as the newer `prepare_block`. */
    method Prepare(pw: real, waveshape: real, frequency: real, sampleRate: real)
      requires sampleRate != 0.0
      modifies this
      ensures State() == old(State()).(pw := VariableSaw.PreparedPw(pw, frequency / sampleRate),
                                       waveshape := waveshape)
    {
      var phaseDelta := frequency / sampleRate;
      var pw' := if phaseDelta >= 0.25 then 0.5 else Clamp(pw, phaseDelta * 2.0, 1.0 - 2.0 * phaseDelta);
      this.pw := pw';
      this.waveshape := waveshape;
    }

    /** The four BLEP updates at an edge, with this file's kernels. */
    static method ApplyBleps(thisSample: real, nextSample: real, notch: real, triangleStep: real, t: real)
      returns (thisSample': real, nextSample': real)
      ensures thisSample' == thisSample + Blep.ThisCorrection(Blep.Bleps(notch, triangleStep, t))
      ensures nextSample' == nextSample + Blep.NextCorrection(Blep.Bleps(notch, triangleStep, t))
    {
      KernelsAgree(t);
      thisSample' := thisSample + notch * ThisBlepSample(t);
      nextSample' := nextSample + notch * NextBlepSample(t);

      thisSample' := thisSample' - triangleStep * ThisIntegratedBlepSample(t);
      nextSample' := nextSample' - triangleStep * NextIntegratedBlepSample(t);
    }

    /** The fields and the edge one call of `process` reaches from `s`, with the
        carried sample moved to `thisSample` and then corrected. */
    ghost predicate Advanced(s: VariableSaw.SawState, phaseDelta: real, thisSample: real, thisSample': real,
                             oldNextSample: real)
      requires s.pw != 0.0 && s.pw != 1.0
      requires VariableSaw.RisingEdge(s, s.phase + phaseDelta) ==> s.previousPw - s.pw + phaseDelta != 0.0
      requires !VariableSaw.RisingEdge(s, s.phase + phaseDelta) && s.phase + phaseDelta >= 1.0 ==> phaseDelta != 0.0
      reads this
    {
      var e := VariableSaw.EdgeStep(s, phaseDelta, s.phase + phaseDelta);
      phase == e.phase && high == e.high && thisSample' == thisSample + VariableSaw.ThisHalf(e) &&
      nextSample == oldNextSample + VariableSaw.NextHalf(e) &&
      pw == s.pw && waveshape == s.waveshape && previousPw == s.previousPw
    }

    /** The phase advance of `process` and the correction at an edge crossed. */
    method AdvancePhase(ghost s: VariableSaw.SawState, thisSample: real, phaseDelta: real) returns (thisSample': real)
      requires s.pw == pw && s.waveshape == waveshape && s.phase == phase && s.high == high
      requires s.previousPw == previousPw
      requires pw != 0.0 && pw != 1.0
      requires VariableSaw.RisingEdge(s, phase + phaseDelta) ==> previousPw - pw + phaseDelta != 0.0
      requires !VariableSaw.RisingEdge(s, phase + phaseDelta) && phase + phaseDelta >= 1.0 ==> phaseDelta != 0.0
      modifies this
      ensures Advanced(s, phaseDelta, thisSample, thisSample', old(nextSample))
    {
      thisSample' := thisSample;
      var triangleAmount := waveshape;
      var notchAmount := 1.0 - waveshape;

      var slopeUp := 1.0 / pw;
      var slopeDown := 1.0 / (1.0 - pw);

      phase := phase + phaseDelta;

      if !high && phase >= pw {
        thisSample' := Rise(s, thisSample', phaseDelta, slopeUp, slopeDown, triangleAmount, notchAmount);
      } else if phase >= 1.0 {
        thisSample' := Wrap(s, thisSample', phaseDelta, slopeUp, slopeDown, triangleAmount, notchAmount);
      }
    }

    /** The rising-edge branch of `process`. */
    method Rise(ghost s: VariableSaw.SawState, thisSample: real, phaseDelta: real, slopeUp: real, slopeDown: real,
                triangleAmount: real, notchAmount: real) returns (thisSample': real)
      requires s.pw == pw && s.waveshape == waveshape && s.phase + phaseDelta == phase && s.high == high
      requires s.previousPw == previousPw && pw != 0.0 && pw != 1.0
      requires slopeUp == 1.0 / pw && slopeDown == 1.0 / (1.0 - pw)
      requires triangleAmount == waveshape && notchAmount == 1.0 - waveshape
      requires VariableSaw.RisingEdge(s, phase) && previousPw - pw + phaseDelta != 0.0
      modifies this
      ensures Advanced(s, phaseDelta, thisSample, thisSample', old(nextSample))
    {
      var triangleStep := (slopeUp + slopeDown) * phaseDelta * triangleAmount;
      var notch := (NOTCH_DEPTH + 1.0 - pw) * notchAmount;
      var t := (phase - pw) / (previousPw - pw + phaseDelta);
      assert Blep.Bleps(notch, triangleStep, t) == VariableSaw.RiseBleps(s, phaseDelta, s.phase + phaseDelta);

      thisSample', nextSample := ApplyBleps(thisSample, nextSample, notch, triangleStep, t);

      high := true;
    }

    /** The wrap branch of `process`. */
    method Wrap(ghost s: VariableSaw.SawState, thisSample: real, phaseDelta: real, slopeUp: real, slopeDown: real,
                triangleAmount: real, notchAmount: real) returns (thisSample': real)
      requires s.pw == pw && s.waveshape == waveshape && s.phase + phaseDelta == phase && s.high == high
      requires s.previousPw == previousPw && pw != 0.0 && pw != 1.0
      requires slopeUp == 1.0 / pw && slopeDown == 1.0 / (1.0 - pw)
      requires triangleAmount == waveshape && notchAmount == 1.0 - waveshape
      requires !VariableSaw.RisingEdge(s, phase) && phase >= 1.0 && phaseDelta != 0.0
      modifies this
      ensures Advanced(s, phaseDelta, thisSample, thisSample', old(nextSample))
    {
      phase := phase - 1.0;

      var triangleStep := (slopeUp + slopeDown) * phaseDelta * triangleAmount;
      var notch := (NOTCH_DEPTH + 1.0) * notchAmount;
      var t := phase / phaseDelta;
      assert Blep.Bleps(notch, triangleStep, t) == VariableSaw.WrapBleps(s, phaseDelta, s.phase + phaseDelta);

      thisSample', nextSample := ApplyBleps(thisSample, nextSample, notch, triangleStep, t);

      high := false;
    }

    /** `process`: the carried sample plus this half of any edge correction, with the
        naive sample at the new phase carried on (overwriting the next half). */
    method Process(frequency: real, sampleRate: real) returns (output: real)
      requires VariableSaw.SawDefined(State(), frequency, sampleRate)
      modifies this
      ensures (State(), output) == VariableSaw.SawStep(old(State()), frequency, sampleRate)
    {
      ghost var before := State();
      var thisSample := nextSample;
      nextSample := 0.0;

      var phaseDelta := frequency / sampleRate;
      var triangleAmount := waveshape;
      var notchAmount := 1.0 - waveshape;

      var slopeUp := 1.0 / pw;
      var slopeDown := 1.0 / (1.0 - pw);

      ghost var edge := VariableSaw.EdgeStep(before, phaseDelta, before.phase + phaseDelta);
      thisSample := AdvancePhase(before, thisSample, phaseDelta);

      nextSample := VariableSaw.NaiveSample(phase, pw, slopeUp, slopeDown, triangleAmount, notchAmount);
      previousPw := pw;

      output := (2.0 * thisSample - 1.0) / (1.0 + NOTCH_DEPTH);
      assert thisSample == before.nextSample + VariableSaw.ThisHalf(edge);
      assert nextSample == VariableSaw.Naive(edge.phase, before.pw, before.waveshape);
      assert State() == VariableSaw.SawStep(before, frequency, sampleRate).0;
    }
  }
}
