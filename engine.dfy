/** The oscillator engine of `src/oscillator/engine.rs`: it owns one oscillator of each
    kind, maps the two user controls (shape and morph) onto the parameters of the one
    a tag selects, and forwards `prepare_block` and `process` to that one only. */
module Engine {

  import opened Util
  import Square = SuperSquare
  import Saw = VariableSaw
  import Strings = StringSynth

  datatype OscillatorType = SuperSquare | VariableSaw | StringSynth

  datatype OscillatorParams = OscillatorParams(shape: real, morph: real)

  // ---------------------------------------------------------------- control mappings

  /** The saw's pulse width for a morph: a tent rising from 0.55 at morph 0 with slope
      1.1, falling from 1.1 at the middle with slope 2.2, scaled by 1.1 and clamped into
      [0.005, 1]. */
  function SawPw(morph: real): (pw: real)
    ensures 0.005 <= pw <= 1.0
  {
    var tent := if morph < 0.5 then morph + 0.5 else 1.0 - (morph - 0.5) * 2.0;
    Clamp(tent * 1.1, 0.005, 1.0)
  }

  /** The ends of the morph range: a 0.55 width at morph 0, the narrowest at morph 1. */
  lemma SawPwEnds()
    ensures SawPw(0.0) == 0.55
    ensures SawPw(1.0) == 0.005
  {
  }

  /** Around the middle of the morph range the clamp holds the width at a full period. */
  lemma SawPwFullAroundMiddle(morph: real)
    requires 9.0 / 22.0 <= morph <= 6.0 / 11.0
    ensures SawPw(morph) == 1.0
  {
  }

  /** The width grows with the morph below the middle and shrinks above it. */
  lemma {:induction false} SawPwTent(a: real, b: real)
    requires a <= b
    ensures b < 0.5 ==> SawPw(a) <= SawPw(b)
    ensures 0.5 <= a ==> SawPw(b) <= SawPw(a)
  {
    var ta := if a < 0.5 then a + 0.5 else 1.0 - (a - 0.5) * 2.0;
    var tb := if b < 0.5 then b + 0.5 else 1.0 - (b - 0.5) * 2.0;
    if b < 0.5 {
      assert ta * 1.1 <= tb * 1.1;
      ClampMonotone(ta * 1.1, tb * 1.1, 0.005, 1.0);
    }
    if 0.5 <= a {
      assert tb * 1.1 <= ta * 1.1;
      ClampMonotone(tb * 1.1, ta * 1.1, 0.005, 1.0);
    }
  }

  /** A clamp keeps the order of its inputs. */
  lemma ClampMonotone(x: real, y: real, lo: real, hi: real)
    requires x <= y && lo <= hi
    ensures Clamp(x, lo, hi) <= Clamp(y, lo, hi)
  {
  }

  /** The saw's waveshape for a shape: all triangle up to shape 3/7, all notched saw
      from 10/21, and a steep linear blend in between. */
  function SawShape(shape: real): (w: real)
    ensures 0.0 <= w <= 1.0
    ensures shape <= 9.0 / 21.0 ==> w == 1.0
    ensures shape >= 10.0 / 21.0 ==> w == 0.0
    ensures 9.0 / 21.0 < shape < 10.0 / 21.0 ==> w + 21.0 * shape == 10.0
  {
    Clamp(10.0 - 21.0 * shape, 0.0, 1.0)
  }

  /** The row of the registration table a morph picks: the morph scaled to the table's
      last index and truncated, with negative values cast to 0 as `as usize` does. */
  function RegistrationIndex(morph: real): (i: nat)
    // a morph in [0, 1] always picks a row of the table
    ensures 0.0 <= morph <= 1.0 ==> i <= 10
    // the row exists exactly below morph 1.1; from there the indexing panics
    ensures i < |Strings.REGISTRATION_TABLE| <==> morph < 1.1
    ensures morph >= 0.0 ==> i as real <= morph * 10.0 < i as real + 1.0
    ensures morph < 0.1 ==> i == 0
  {
    Strings.RegistrationTableWellFormed();
    CastUsize(morph * (|Strings.REGISTRATION_TABLE| as real - 1.0))
  }

  // ---------------------------------------------------------------- the engine as a value

  /** The states of the three owned oscillators and the tag. */
  datatype EngineState = EngineState(square: Square.SquareState, saw: Saw.SawState,
                                     strings: Strings.StringState, selected: OscillatorType)

  /** `new`: every oscillator at its default, the super square selected. */
  const DEFAULT_ENGINE: EngineState :=
    EngineState(Square.DEFAULT_SQUARE, Saw.DEFAULT_SAW, Strings.DEFAULT_STRING, SuperSquare)

  /** What `prepare_block` demands: a sample rate to divide by for the saw and the
      strings, and a morph whose registration row exists for the strings. */
  predicate PrepareDefined(e: EngineState, params: OscillatorParams, sampleRate: real)
  {
    match e.selected
    case SuperSquare => true
    case VariableSaw => sampleRate != 0.0
    case StringSynth => sampleRate != 0.0 && params.morph < 1.1
  }

  /** `prepare_block` on the selected oscillator. The super square is given the frequency
      as it comes; `prepare` keeps the sample rate for its smoothers only. */
  function PreparedEngine(e: EngineState, params: OscillatorParams, frequency: real, sampleRate: real): (r: EngineState)
    requires PrepareDefined(e, params, sampleRate)
    // only the selected oscillator is touched
    ensures r.selected == e.selected
    ensures e.selected != SuperSquare ==> r.square == e.square
    ensures e.selected != VariableSaw ==> r.saw == e.saw
    ensures e.selected != StringSynth ==> r.strings == e.strings
    // the saw keeps its phase and gets a waveshape in [0, 1]
    ensures e.selected == VariableSaw ==>
      r.saw == e.saw.(pw := r.saw.pw, waveshape := r.saw.waveshape) && 0.0 <= r.saw.waveshape <= 1.0
  {
    match e.selected
    case SuperSquare =>
      e.(square := Square.PreparedTargets(e.square, params.shape, frequency))
    case VariableSaw =>
      e.(saw := e.saw.(pw := Saw.PreparedPw(SawPw(params.morph), frequency / sampleRate),
                       waveshape := SawShape(params.shape)))
    case StringSynth =>
      e.(strings := Strings.PreparedString(e.strings, RegistrationRow(params.morph), params.shape,
                                           frequency / sampleRate))
  }

  /** The registration a morph picks, which is long enough for every shift. */
  function RegistrationRow(morph: real): (row: seq<real>)
    requires morph < 1.1
    ensures Strings.IsRegistration(row)
    ensures forall d :: Strings.RegistrationLongEnough(row, d)
  {
    Strings.RegistrationTableWellFormed();
    Strings.REGISTRATION_TABLE[RegistrationIndex(morph)]
  }

  /** The saw's width is the morph's width, kept two increments inside the period. */
  lemma PreparedSawPw(e: EngineState, params: OscillatorParams, frequency: real, sampleRate: real)
    requires e.selected == VariableSaw && sampleRate != 0.0
    ensures var pw := PreparedEngine(e, params, frequency, sampleRate).saw.pw;
      var pd := frequency / sampleRate;
      (pd >= 0.25 ==> pw == 0.5) &&
      (pd < 0.25 ==> 2.0 * pd <= pw <= 1.0 - 2.0 * pd) &&
      (pd < 0.25 && 2.0 * pd <= SawPw(params.morph) <= 1.0 - 2.0 * pd ==> pw == SawPw(params.morph))
  {
  }

  /** With a note low enough to need no octave shift, the four string gains add up to the
      shape control: the strings take `params.shape` as their gain. */
  lemma {:induction false} StringGainIsShape(e: EngineState, params: OscillatorParams, frequency: real, sampleRate: real)
    requires e.selected == StringSynth && sampleRate != 0.0 && params.morph < 1.1
    requires frequency / sampleRate <= 0.5
    ensures var g := PreparedEngine(e, params, frequency, sampleRate).strings.gainTargets;
      g.saw8 + g.saw4 + g.saw2 + g.saw1 == params.shape
  {
    var pd := frequency / sampleRate;
    var row := RegistrationRow(params.morph);
    assert Strings.OctaveShift(pd) == (0, pd);
    assert Strings.ShiftedRegistration(row, 0) == row;
    Strings.RegistrationTableWellFormed();
    Strings.TableGainsTotal(RegistrationIndex(params.morph), params.shape);
  }

  /** The super square clamps the frequency it is given into [1e-6, 0.25]; every
      frequency from 0.25 up, every audible one in hertz among them, sets the same master
      target. */
  lemma SquareFrequencySaturates(e: EngineState, params: OscillatorParams, frequency: real, sampleRate: real)
    requires e.selected == SuperSquare && frequency >= 0.25
    ensures PreparedEngine(e, params, frequency, sampleRate).square.masterTarget == 0.25
  {
  }

  /** The values the smoothers of the selected oscillator yield for one sample: the
      super square's two frequencies and the strings' frequency and gains. */
  datatype Smoothed = Smoothed(masterFrequency: real, slaveFrequency: real, strings: Strings.StringSmoothed)

  /** What `process` of the selected oscillator demands. */
  predicate ProcessDefined(e: EngineState, sm: Smoothed, frequency: real, sampleRate: real)
  {
    match e.selected
    case SuperSquare => sm.masterFrequency > 0.0 && sm.slaveFrequency > 0.0
    case VariableSaw => Saw.SawDefined(e.saw, frequency, sampleRate)
    case StringSynth => Strings.StringDefined(e.strings, sm.strings)
  }

  /** `process`: one sample of the selected oscillator; the others stand still. */
  function EngineStep(e: EngineState, sm: Smoothed, frequency: real, sampleRate: real): (r: (EngineState, real))
    requires ProcessDefined(e, sm, frequency, sampleRate)
    ensures r.0.selected == e.selected
    ensures e.selected != SuperSquare ==> r.0.square == e.square
    ensures e.selected != VariableSaw ==> r.0.saw == e.saw
    ensures e.selected != StringSynth ==> r.0.strings == e.strings
  {
    match e.selected
    case SuperSquare =>
      var q := Square.SquareStep(e.square, sm.masterFrequency, sm.slaveFrequency);
      (e.(square := q.0), q.1)
    case VariableSaw =>
      var q := Saw.SawStep(e.saw, frequency, sampleRate);
      (e.(saw := q.0), q.1)
    case StringSynth =>
      var q := Strings.StringStep(e.strings, sm.strings);
      (e.(strings := q.0), q.1)
  }

  /** The sample and new state are those of the selected oscillator's own step. */
  lemma StepIsSelectedStep(e: EngineState, sm: Smoothed, frequency: real, sampleRate: real)
    requires ProcessDefined(e, sm, frequency, sampleRate)
    ensures var r := EngineStep(e, sm, frequency, sampleRate);
      (e.selected == SuperSquare ==>
        (r.0.square, r.1) == Square.SquareStep(e.square, sm.masterFrequency, sm.slaveFrequency)) &&
      (e.selected == VariableSaw ==> (r.0.saw, r.1) == Saw.SawStep(e.saw, frequency, sampleRate)) &&
      (e.selected == StringSynth ==> (r.0.strings, r.1) == Strings.StringStep(e.strings, sm.strings))
  {
  }

  // ---------------------------------------------------------------- the object

  /** `OscillatorEngine`. The three oscillators are owned objects of distinct classes. */
  class OscillatorEngine {
    const superSquare: Square.SuperSquareOscillator
    const variableSaw: Saw.VariableSawOscillator
    const stringSynth: Strings.StringSynthOscillator
    var selected: OscillatorType

    function State(): EngineState
      reads this, superSquare, variableSaw, stringSynth
    {
      EngineState(superSquare.State(), variableSaw.State(), stringSynth.State(), selected)
    }

    constructor New()
      ensures State() == DEFAULT_ENGINE
      ensures fresh(superSquare) && fresh(variableSaw) && fresh(stringSynth)
    {
      superSquare := new Square.SuperSquareOscillator.Default();
      variableSaw := new Saw.VariableSawOscillator.Default();
      stringSynth := new Strings.StringSynthOscillator.Default();
      selected := SuperSquare;
    }

    method PrepareBlock(params: OscillatorParams, frequency: real, sampleRate: real)
      requires PrepareDefined(State(), params, sampleRate)
      modifies superSquare, variableSaw, stringSynth
      ensures State() == PreparedEngine(old(State()), params, frequency, sampleRate)
    {
      match selected {
        case SuperSquare =>
          superSquare.Prepare(params.shape, frequency);
        case VariableSaw =>
          var sawPw := SawPw(params.morph);
          var sawShape := SawShape(params.shape);
          variableSaw.PrepareBlock(sawPw, sawShape, frequency, sampleRate);
        case StringSynth =>
          var row := RegistrationRow(params.morph);
          stringSynth.PrepareBlock(row, params.shape, frequency, sampleRate);
      }
    }

    method Process(sm: Smoothed, frequency: real, sampleRate: real) returns (output: real)
      requires ProcessDefined(State(), sm, frequency, sampleRate)
      modifies superSquare, variableSaw, stringSynth
      ensures (State(), output) == EngineStep(old(State()), sm, frequency, sampleRate)
    {
      match selected {
        case SuperSquare =>
          output := superSquare.Process(sm.masterFrequency, sm.slaveFrequency);
        case VariableSaw =>
          output := variableSaw.Process(frequency, sampleRate);
        case StringSynth =>
          output := stringSynth.Process(sm.strings);
      }
    }
  }
}
