/** The naive digital oscillators of `src/oscillator/digital.rs`: a phase accumulator
    producing a pure sine or square, and a blend of two of them. `sin` stands for
    `f32::sin`, which the model does not define. */
module Digital {

  import opened Util

  datatype Shape = Saw | Square | Triangle | Sine

  /** `std::f32::consts::TAU` as a decimal. */
  const TAU: real := 6.2831855

  /** One phase increment with at most one wrap. */
  function Advance(phase: real, delta: real): (p: real)
    ensures p == phase + delta || p == phase + delta - 1.0
    ensures p >= 1.0 ==> phase + delta >= 2.0
    ensures 0.0 <= phase < 1.0 && 0.0 <= delta < 1.0 ==> 0.0 <= p < 1.0
  {
    var p := phase + delta;
    if p >= 1.0 then p - 1.0 else p
  }

  /** The square is high for the first half of the period. */
  function SquareLevel(phase: real): (level: real)
    ensures level == 1.0 <==> phase < 0.5
    ensures level == 0.0 <==> phase >= 0.5
  {
    if phase >= 0.5 then 0.0 else 1.0
  }

  datatype DigitalState = DigitalState(phase: real, shape: Shape)

  /** One call of `process`: the output from the phase before the increment, then the
      phase advanced; saw and triangle are unimplemented (`todo!()`), which is `None`. */
  function DigitalStep(s: DigitalState, frequency: real, sampleRate: real, sin: real -> real)
    : (r: Option<(DigitalState, real)>)
    requires sampleRate != 0.0
    ensures r.None? <==> (s.shape == Saw || s.shape == Triangle)
    ensures r.Some? ==> r.value.0 == s.(phase := Advance(s.phase, frequency / sampleRate))
    ensures s.shape == Sine ==> r.Some? && r.value.1 == sin(s.phase * TAU)
    ensures s.shape == Square ==> r.Some? && r.value.1 == SquareLevel(s.phase)
  {
    var next := s.(phase := Advance(s.phase, frequency / sampleRate));
    match s.shape
    case Sine => Some((next, sin(s.phase * TAU)))
    case Square => Some((next, SquareLevel(s.phase)))
    case _ => None
  }

  /** With a phase increment in [0, 1), any number of steps keeps the phase in [0, 1). */
  lemma {:induction false} PhaseStaysInRange(s: DigitalState, frequency: real, sampleRate: real,
                                             sin: real -> real, n: nat)
    requires sampleRate != 0.0 && 0.0 <= frequency / sampleRate < 1.0
    requires 0.0 <= s.phase < 1.0 && (s.shape == Sine || s.shape == Square)
    ensures var r := Run(s, frequency, sampleRate, sin, n);
      r.Some? && 0.0 <= r.value.phase < 1.0 && r.value.shape == s.shape
    decreases n
  {
    if n > 0 {
      var next := DigitalStep(s, frequency, sampleRate, sin).value.0;
      PhaseStaysInRange(next, frequency, sampleRate, sin, n - 1);
    }
  }

  /** The state after `n` calls at a fixed frequency. */
  function Run(s: DigitalState, frequency: real, sampleRate: real, sin: real -> real, n: nat)
    : (r: Option<DigitalState>)
    requires sampleRate != 0.0
    ensures n == 0 ==> r == Some(s)
    ensures (s.shape == Saw || s.shape == Triangle) && n > 0 ==> r.None?
    decreases n
  {
    if n == 0 then Some(s)
    else match DigitalStep(s, frequency, sampleRate, sin)
      case None => None
      case Some(step) => Run(step.0, frequency, sampleRate, sin, n - 1)
  }

  /** The blend of two outputs: `a (1 - shape) + b shape`. */
  function BlendLevel(a: real, b: real, shape: real): (r: real)
    ensures shape == 0.0 ==> r == a
    ensures shape == 1.0 ==> r == b
  {
    (a * (1.0 - shape)) + (b * shape)
  }

  /** The two-gain form is the linear cross-fade, so for a shape in [0, 1] the blend lies
      between the two outputs. */
  lemma BlendIsCrossFade(a: real, b: real, shape: real)
    ensures BlendLevel(a, b, shape) == CrossFade(a, b, shape)
    ensures 0.0 <= shape <= 1.0 ==> Min(a, b) <= BlendLevel(a, b, shape) <= Max(a, b)
  {
    assert a * (1.0 - shape) + b * shape == a + (b - a) * shape;
  }

  /** One call of `BlendOscillator::process`: both oscillators advance, then blend. */
  function BlendStep(a: DigitalState, b: DigitalState, shape: real, frequency: real, sampleRate: real,
                     sin: real -> real): (r: Option<(DigitalState, DigitalState, real)>)
    requires sampleRate != 0.0
    ensures r.Some? <==> DigitalStep(a, frequency, sampleRate, sin).Some?
                         && DigitalStep(b, frequency, sampleRate, sin).Some?
    ensures r.Some? ==>
      var sa := DigitalStep(a, frequency, sampleRate, sin).value;
      var sb := DigitalStep(b, frequency, sampleRate, sin).value;
      r.value == (sa.0, sb.0, BlendLevel(sa.1, sb.1, shape))
  {
    match DigitalStep(a, frequency, sampleRate, sin)
    case None => None
    case Some(sa) =>
      match DigitalStep(b, frequency, sampleRate, sin)
      case None => None
      case Some(sb) => Some((sa.0, sb.0, BlendLevel(sa.1, sb.1, shape)))
  }

  /** The default blend (sine into square) never reaches `todo!()`, and at shape 1/2
      its output is the mean of the sine and the square. */
  lemma DefaultBlendIsDefined(a: DigitalState, b: DigitalState, frequency: real, sampleRate: real,
                              sin: real -> real)
    requires sampleRate != 0.0 && a.shape == Sine && b.shape == Square
    ensures var r := BlendStep(a, b, 0.5, frequency, sampleRate, sin);
      r.Some? && r.value.2 == (sin(a.phase * TAU) + SquareLevel(b.phase)) / 2.0
  {
  }

  /** `DigitalOscillator`. */
  class DigitalOscillator {
    var phase: real
    var shape: Shape

    function State(): DigitalState
      reads this
    {
      DigitalState(phase, shape)
    }

    /** `Default`: a sine at phase 0. */
    constructor Default()
      ensures State() == DigitalState(0.0, Sine)
    {
      phase := 0.0;
      shape := Sine;
    }

    constructor New(shape: Shape)
      ensures State() == DigitalState(0.0, shape)
    {
      phase := 0.0;
      this.shape := shape;
    }

    method ProcessSine(frequency: real, sampleRate: real, sin: real -> real) returns (sine: real)
      requires sampleRate != 0.0
      modifies this
      ensures sine == sin(old(phase) * TAU)
      ensures phase == Advance(old(phase), frequency / sampleRate) && shape == old(shape)
    {
      var phaseDelta := frequency / sampleRate;
      sine := sin(phase * TAU);
      phase := phase + phaseDelta;
      if phase >= 1.0 {
        phase := phase - 1.0;
      }
    }

    method ProcessSquare(frequency: real, sampleRate: real) returns (square: real)
      requires sampleRate != 0.0
      modifies this
      ensures square == SquareLevel(old(phase))
      ensures phase == Advance(old(phase), frequency / sampleRate) && shape == old(shape)
    {
      var phaseDelta := frequency / sampleRate;
      square := if phase >= 0.5 then 0.0 else 1.0;
      phase := phase + phaseDelta;
      if phase >= 1.0 {
        phase := phase - 1.0;
      }
    }

    /** `process`: `None` stands for the `todo!()` panic, which leaves the state alone. */
    method Process(frequency: real, sampleRate: real, sin: real -> real) returns (output: Option<real>)
      requires sampleRate != 0.0
      modifies this
      ensures var r := DigitalStep(old(State()), frequency, sampleRate, sin);
        (r.None? ==> output.None? && State() == old(State()))
        && (r.Some? ==> output == Some(r.value.1) && State() == r.value.0)
    {
      match shape {
        case Sine =>
          var v := ProcessSine(frequency, sampleRate, sin);
          output := Some(v);
        case Square =>
          var v := ProcessSquare(frequency, sampleRate);
          output := Some(v);
        case _ =>
          output := None;
      }
    }
  }

  /** `BlendOscillator`: two owned oscillators and a blend amount. */
  class BlendOscillator {
    var shape: real
    const a: DigitalOscillator
    const b: DigitalOscillator

    /** The two oscillators are distinct objects. */
    predicate Valid()
      reads this
    {
      a != b
    }

    /** `Default`: shape 1/2, a sine and a square, both at phase 0. */
    constructor Default()
      ensures Valid() && fresh(a) && fresh(b) && shape == 0.5
      ensures a.State() == DigitalState(0.0, Sine) && b.State() == DigitalState(0.0, Square)
    {
      shape := 0.5;
      a := new DigitalOscillator.New(Sine);
      b := new DigitalOscillator.New(Square);
    }

    /** `process`: on the `todo!()` panic the output is `None` and the program would
        abort, so nothing is promised about the oscillators then. */
    method Process(frequency: real, sampleRate: real, sin: real -> real) returns (output: Option<real>)
      requires Valid() && sampleRate != 0.0
      modifies a, b
      ensures var r := BlendStep(old(a.State()), old(b.State()), shape, frequency, sampleRate, sin);
        (r.None? ==> output.None?)
        && (r.Some? ==> output == Some(r.value.2) && a.State() == r.value.0 && b.State() == r.value.1)
    {
      ghost var r := BlendStep(a.State(), b.State(), shape, frequency, sampleRate, sin);
      ghost var ra := DigitalStep(a.State(), frequency, sampleRate, sin);
      ghost var rb := DigitalStep(b.State(), frequency, sampleRate, sin);
      var va := a.Process(frequency, sampleRate, sin);
      if va.None? {
        return None;
      }
      var vb := b.Process(frequency, sampleRate, sin);
      if vb.None? {
        return None;
      }
      output := Some((va.value * (1.0 - shape)) + (vb.value * shape));
      assert ra == Some((a.State(), va.value)) && rb == Some((b.State(), vb.value));
      assert output.value == BlendLevel(va.value, vb.value, shape);
      assert r == Some((a.State(), b.State(), BlendLevel(va.value, vb.value, shape)));
    }
  }
}
