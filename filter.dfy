/** The two-pole state-variable filter of `src/filter.rs` (trapezoidal, zero-delay
    feedback form). `tan` stands for `f32::tan`, which the model does not define. */
module Filter {

  import opened Util

  datatype FilterMode = LowPass | BandPass | HighPass

  /** `std::f32::consts::PI` as a decimal. */
  const PI: real := 3.1415927

  /** Normalised frequencies at or above this are treated as this, just below Nyquist. */
  const TAN_LIMIT: real := 0.497

  /** `tan` in `src/filter.rs`: the pre-warped gain at a normalised frequency. */
  function WarpedGain(x: real, tan: real -> real): (g: real)
    ensures x < TAN_LIMIT ==> g == tan(x * PI)
    ensures x >= TAN_LIMIT ==> g == tan(TAN_LIMIT * PI)
  {
    var f := if x < TAN_LIMIT then x else TAN_LIMIT;
    tan(f * PI)
  }

  /** Above the limit every frequency gives the same gain. */
  lemma WarpedGainSaturates(x: real, y: real, tan: real -> real)
    requires x >= TAN_LIMIT && y >= TAN_LIMIT
    ensures WarpedGain(x, tan) == WarpedGain(y, tan)
  {
  }

  /** The fields of an `Svf` as a value. */
  datatype SvfState = SvfState(mode: FilterMode, g: real, r: real, h: real, state1: real, state2: real)

  /** `set_f_q` divides by the resonance and by 1 + r g + g^2. */
  predicate CoefficientsDefined(f: real, resonance: real, tan: real -> real)
  {
    var g := WarpedGain(f, tan);
    resonance != 0.0 && 1.0 + (1.0 / resonance) * g + g * g != 0.0
  }

  /** With a non-negative gain and a positive resonance, the normaliser h is in (0, 1]
      and exactly inverts 1 + r g + g^2. */
  lemma {:induction false} NormaliserWellDefined(g: real, resonance: real)
    requires g >= 0.0 && resonance > 0.0
    ensures var r := 1.0 / resonance;
      var d := 1.0 + r * g + g * g;
      d >= 1.0 && 0.0 < 1.0 / d <= 1.0 && (1.0 / d) * d == 1.0
  {
    var r := 1.0 / resonance;
    assert r > 0.0;
    ProductNonNegative(r, g);
    ProductNonNegative(g, g);
  }

  /** For x^2 + x + 1 > 0: the default coefficients are always defined. */
  lemma {:induction false} UnitResonanceDefined(g: real)
    ensures 1.0 + 1.0 * g + g * g > 0.0
  {
    SquareNonNegative(g + 0.5);
    assert 1.0 + g + g * g == (g + 0.5) * (g + 0.5) + 0.75;
  }

  /** `set_f_q` as a value: the gain from the clamped tangent, r = 1/resonance and h the
      inverse of 1 + r g + g^2; the mode and the integrator states stay. */
  function Tuned(s: SvfState, f: real, resonance: real, tan: real -> real): (t: SvfState)
    requires CoefficientsDefined(f, resonance, tan)
    ensures t.g == WarpedGain(f, tan) && t.r == 1.0 / resonance
    ensures t.h * (1.0 + t.r * t.g + t.g * t.g) == 1.0
    ensures t.mode == s.mode && t.state1 == s.state1 && t.state2 == s.state2
  {
    var g := WarpedGain(f, tan);
    var r := 1.0 / resonance;
    s.(g := g, r := r, h := 1.0 / (1.0 + r * g + g * g))
  }

  /** The three simultaneous outputs of one filter step. */
  datatype Taps = Taps(hp: real, bp: real, lp: real)

  function Outputs(s: SvfState, input: real): Taps
  {
    var hp := (input - s.r * s.state1 - s.g * s.state1 - s.state2) * s.h;
    var bp := s.g * hp + s.state1;
    var lp := s.g * bp + s.state2;
    Taps(hp, bp, lp)
  }

  /** One sample through the filter: new integrator states and the selected output. */
  function SvfStep(s: SvfState, input: real): (r: (SvfState, real))
    // only the two integrator states change
    ensures r.0.mode == s.mode && r.0.g == s.g && r.0.r == s.r && r.0.h == s.h
    ensures var taps := Outputs(s, input);
      r.0.state1 == s.g * taps.hp + taps.bp && r.0.state2 == s.g * taps.bp + taps.lp
    // the output is chosen by the mode
    ensures s.mode == LowPass ==> r.1 == Outputs(s, input).lp
    ensures s.mode == BandPass ==> r.1 == Outputs(s, input).bp
    ensures s.mode == HighPass ==> r.1 == Outputs(s, input).hp
  {
    var taps := Outputs(s, input);
    var next := s.(state1 := s.g * taps.hp + taps.bp, state2 := s.g * taps.bp + taps.lp);
    var out := match s.mode
      case LowPass => taps.lp
      case BandPass => taps.bp
      case HighPass => taps.hp;
    (next, out)
  }

  /** When h normalises 1 + r g + g^2, the three outputs solve the filter's implicit
      loop equation: the input is the high-pass plus r times the band-pass plus the
      low-pass. This is what makes the update "zero-delay". */
  lemma {:induction false} OutputsSolveLoop(s: SvfState, input: real)
    requires s.h * (1.0 + s.r * s.g + s.g * s.g) == 1.0
    ensures var t := Outputs(s, input); t.hp + s.r * t.bp + t.lp == input
  {
    var t := Outputs(s, input);
    var g, r, s1, s2 := s.g, s.r, s.state1, s.state2;
    var e := input - r * s1 - g * s1 - s2;
    var hp := t.hp;
    assert hp == e * s.h;
    assert t.bp == g * hp + s1;
    assert t.lp == g * (g * hp + s1) + s2;
    assert hp + r * (g * hp + s1) + (g * (g * hp + s1) + s2)
        == hp * (1.0 + r * g + g * g) + (r + g) * s1 + s2;
    assert hp * (1.0 + r * g + g * g) == e * (s.h * (1.0 + r * g + g * g));
  }

  /** Silence in, silence out: a filter at rest stays at rest. */
  lemma RestIsStable(s: SvfState)
    requires s.state1 == 0.0 && s.state2 == 0.0
    ensures SvfStep(s, 0.0).1 == 0.0
    ensures SvfStep(s, 0.0).0 == s
  {
  }

  /** The `Svf` struct. No method changes the mode, so it stays low-pass. */
  class Svf {
    var mode: FilterMode
    var g: real
    var r: real
    var h: real
    var state1: real
    var state2: real

    function State(): SvfState
      reads this
    {
      SvfState(mode, g, r, h, state1, state2)
    }

    /** `Default`: low-pass at rest, tuned by `set_f_q(22000, 1)`, whose frequency is
        far above the limit, so g is the gain at the limit and r = 1. */
    constructor (tan: real -> real)
      ensures mode == LowPass && state1 == 0.0 && state2 == 0.0
      ensures g == tan(TAN_LIMIT * PI) && r == 1.0
      ensures h * (1.0 + r * g + g * g) == 1.0
    {
      mode := LowPass;
      g, r, h := 0.0, 0.0, 0.0;
      state1, state2 := 0.0, 0.0;
      new;
      UnitResonanceDefined(WarpedGain(22000.0, tan));
      SetFQ(22000.0, 1.0, tan);
    }

    /** Set frequency and resonance: g from the clamped tangent, r = 1/resonance and
        h the inverse of 1 + r g + g^2. */
    method SetFQ(f: real, resonance: real, tan: real -> real)
      requires CoefficientsDefined(f, resonance, tan)
      modifies this
      ensures State() == Tuned(old(State()), f, resonance, tan)
    {
      g := WarpedGain(f, tan);
      r := 1.0 / resonance;
      h := 1.0 / (1.0 + r * g + g * g);
    }

    method Process(input: real) returns (output: real)
      modifies this
      ensures (State(), output) == SvfStep(old(State()), input)
    {
      ghost var before := State();
      var hp := (input - r * state1 - g * state1 - state2) * h;
      var bp := g * hp + state1;
      var lp := g * bp + state2;

      state1 := g * hp + bp;
      state2 := g * bp + lp;

      match mode {
        case LowPass => output := lp;
        case BandPass => output := bp;
        case HighPass => output := hp;
      }
      assert Outputs(before, input) == Taps(hp, bp, lp);
      assert State() == SvfStep(before, input).0;
    }
  }
}
