/** `VariableShapeOscillator` of `src/oscillator/analog.rs`: a slave oscillator
    hard-synced to a master phasor, morphing between saw, square and triangle, with
    BLEP corrections at each edge. The two compile-time switches are both on, so the
    model follows the synced, phase-output path. */
module Analog {

  import opened Util
  import opened Blep
  import VariableSaw

  /** The fields of a `VariableShapeOscillator` as a value. */
  datatype ShapeState = ShapeState(
    pw: real,
    waveshape: real,
    masterFrequency: real,
    slaveFrequency: real,
    phaseModulation: real,
    masterPhase: real,
    slavePhase: real,
    nextSample: real,
    previousPw: real,
    high: bool)

  const DEFAULT_SHAPE := ShapeState(0.5, 0.0, 0.0, 0.0, 0.0, 0.0, 0.0, 0.0, 0.5, false)

  /** How much square is mixed in: none up to a waveshape of 0.5, then linearly more. */
  function SquareAmount(waveshape: real): (r: real)
    ensures waveshape <= 0.5 ==> r == 0.0
    ensures waveshape >= 0.5 ==> r == 2.0 * (waveshape - 0.5)
  {
    Max(waveshape - 0.5, 0.0) * 2.0
  }

  /** How much triangle is mixed in. `1 - waveshape - 2` is `-1 - waveshape`, so any
      waveshape from -1 up gives no triangle at all. */
  function TriangleAmount(waveshape: real): (r: real)
    ensures waveshape >= -1.0 ==> r == 0.0
    ensures waveshape < -1.0 ==> r == -1.0 - waveshape && r > 0.0
  {
    Max(1.0 - waveshape - 2.0, 0.0)
  }

  /** On the waveshape range [0, 1] the control sets, the oscillator never makes a
      triangle and makes a pure square only at 1. */
  lemma ControlRangeAmounts(waveshape: real)
    requires 0.0 <= waveshape <= 1.0
    ensures TriangleAmount(waveshape) == 0.0
    ensures 0.0 <= SquareAmount(waveshape) <= 1.0
    ensures SquareAmount(waveshape) == 1.0 <==> waveshape == 1.0
  {
  }

  /** `compute_naive_sample`: the saw (the phase) faded towards the square, then
      towards the triangle. */
  function NaiveShape(phase: real, pw: real, slopeUp: real, slopeDown: real,
                      triangleAmount: real, squareAmount: real): real
  {
    var saw := phase;
    var square := if phase < pw then 0.0 else 1.0;
    var triangle := if phase < pw then phase * slopeUp else 1.0 - (phase - pw) * slopeDown;
    var saw := saw + (square - saw) * squareAmount;
    saw + (triangle - saw) * triangleAmount
  }

  /** With neither square nor triangle mixed in, the naive sample is the phase. */
  lemma NaiveShapeIsSaw(phase: real, pw: real, slopeUp: real, slopeDown: real)
    ensures NaiveShape(phase, pw, slopeUp, slopeDown, 0.0, 0.0) == phase
  {
  }

  /** With only square, the naive sample is 0 below the width and 1 from it on. */
  lemma NaiveShapeIsSquare(phase: real, pw: real, slopeUp: real, slopeDown: real)
    ensures NaiveShape(phase, pw, slopeUp, slopeDown, 0.0, 1.0) == if phase < pw then 0.0 else 1.0
  {
  }

  /** With only triangle and the slopes of a width strictly inside (0, 1), the
      triangle rises from 0 to 1 at the width and falls back to 0 at the end of the
      period, so it is continuous at both corners. */
  lemma {:induction false} TriangleIsContinuous(pw: real)
    requires 0.0 < pw < 1.0
    ensures NaiveShape(0.0, pw, 1.0 / pw, 1.0 / (1.0 - pw), 1.0, 0.0) == 0.0
    ensures NaiveShape(pw, pw, 1.0 / pw, 1.0 / (1.0 - pw), 1.0, 0.0) == 1.0
    ensures NaiveShape(1.0, pw, 1.0 / pw, 1.0 / (1.0 - pw), 1.0, 0.0) == 0.0
  {
    assert (1.0 - pw) * (1.0 / (1.0 - pw)) == 1.0;
  }

  /** The quantities `process` derives once per call: the width, the previous width,
      the slave increment, the two triangle slopes and the two mix amounts. */
  datatype Shape = Shape(pw: real, previousPw: real, slaveDelta: real, slopeUp: real,
                         slopeDown: real, triangleAmount: real, squareAmount: real)

  function ShapeOf(s: ShapeState, slaveDelta: real): (c: Shape)
    requires s.pw != 0.0 && s.pw != 1.0
    ensures c.pw == s.pw && c.previousPw == s.previousPw && c.slaveDelta == slaveDelta
  {
    Shape(s.pw, s.previousPw, slaveDelta, 1.0 / s.pw, 1.0 / (1.0 - s.pw),
          TriangleAmount(s.waveshape), SquareAmount(s.waveshape))
  }

  function NaiveAt(phase: real, c: Shape): real
  {
    NaiveShape(phase, c.pw, c.slopeUp, c.slopeDown, c.triangleAmount, c.squareAmount)
  }

  /** What the sync block of `process` finds: the new master phase, whether the
      master wrapped, the fraction of the sample since it wrapped, whether the slave
      crossed an edge before the reset, and the naive slave sample at the reset. */
  datatype Master = Master(phase: real, reset: bool, resetTime: real, transition: bool, value: real)

  /** The slave at the moment of the reset: wrapped once if it passed 1, and a
      transition if it wrapped or passed the width while low. */
  function AtReset(masterPhase: real, resetTime: real, slavePhase: real, high: bool, c: Shape): Master
  {
    var wrapped := slavePhase >= 1.0;
    var atReset := if wrapped then slavePhase - 1.0 else slavePhase;
    Master(masterPhase, true, resetTime, wrapped || (!high && atReset >= c.pw), NaiveAt(atReset, c))
  }

  /** The slave phase at the moment the master wrapped, a fraction `1 - resetTime`
      of the slave increment after its last sample. */
  function SlaveAtReset(slavePhase: real, resetTime: real, slaveDelta: real): real
  {
    slavePhase + (1.0 - resetTime) * slaveDelta
  }

  /** Advance the master; when it passes 1 it wraps by exactly 1 and the reset time
      is the part of the increment beyond the wrap. */
  function AdvanceMaster(s: ShapeState, masterDelta: real, c: Shape): (m: Master)
    requires s.masterPhase + masterDelta >= 1.0 ==> masterDelta != 0.0
    ensures m.reset <==> s.masterPhase + masterDelta >= 1.0
    ensures m.reset ==> m.phase == s.masterPhase + masterDelta - 1.0 && m.resetTime == m.phase / masterDelta
    ensures !m.reset ==> m.phase == s.masterPhase + masterDelta && !m.transition
  {
    var phase := s.masterPhase + masterDelta;
    if phase >= 1.0 then
      var wrapped := phase - 1.0;
      var resetTime := wrapped / masterDelta;
      AtReset(wrapped, resetTime, SlaveAtReset(s.slavePhase, resetTime, c.slaveDelta), s.high, c)
    else
      Master(phase, false, 0.0, false, 0.0)
  }

  /** A master phase in [0, 1) with an increment in (0, 1] stays in [0, 1), wrapping
      at most once, and the reset time is a fraction of one sample. */
  lemma {:induction false} MasterWrapsOnce(s: ShapeState, masterDelta: real, c: Shape)
    requires 0.0 <= s.masterPhase < 1.0 && 0.0 < masterDelta <= 1.0
    ensures var m := AdvanceMaster(s, masterDelta, c);
      0.0 <= m.phase < 1.0 && (m.reset ==> 0.0 <= m.resetTime < 1.0)
  {
    var m := AdvanceMaster(s, masterDelta, c);
    if m.reset {
      QuotientBelowOne(s.masterPhase + masterDelta - 1.0, masterDelta);
    }
  }

  /** The correction at a reset: the naive value there removed as a step, with no
      change of slope. */
  function ResetBleps(m: Master): Bleps
  {
    Bleps(-m.value, 0.0, m.resetTime)
  }

  /** The halves of the reset correction; none without a reset. */
  function ResetThis(m: Master): real
  {
    if m.reset then ThisCorrection(ResetBleps(m)) else 0.0
  }

  function ResetNext(m: Master): real
  {
    if m.reset then NextCorrection(ResetBleps(m)) else 0.0
  }

  /** The slave part of the state while the edge loop runs, with the sample being
      corrected. */
  datatype Slave = Slave(phase: real, high: bool, thisSample: real, nextSample: real)

  /** The edge loop divides by the slave increment and by the width's travel. */
  predicate LoopDefined(c: Shape)
  {
    c.slaveDelta != 0.0 && c.previousPw - c.pw + c.slaveDelta != 0.0
  }

  /** The change of slope at an edge, in units of one sample. */
  function TriangleStep(c: Shape): real
  {
    (c.slopeUp + c.slopeDown) * c.slaveDelta * c.triangleAmount
  }

  /** The rising edge at the width: the square steps up by its amount and the
      triangle turns down. */
  function RiseBleps(sl: Slave, c: Shape): Bleps
    requires LoopDefined(c)
  {
    Bleps(c.squareAmount, TriangleStep(c), (sl.phase - c.pw) / (c.previousPw - c.pw + c.slaveDelta))
  }

  function Rise(sl: Slave, c: Shape): Slave
    requires LoopDefined(c)
  {
    var b := RiseBleps(sl, c);
    Slave(sl.phase, true, sl.thisSample + ThisCorrection(b), sl.nextSample + NextCorrection(b))
  }

  /** The falling edge at the wrap: the wave drops by what the triangle does not
      carry and the triangle turns up again. */
  function FallBleps(phase: real, c: Shape): Bleps
    requires LoopDefined(c)
  {
    Bleps(-(1.0 - c.triangleAmount), -TriangleStep(c), phase / c.slaveDelta)
  }

  function Fall(sl: Slave, c: Shape): Slave
    requires LoopDefined(c)
  {
    var phase := sl.phase - 1.0;
    var b := FallBleps(phase, c);
    Slave(phase, false, sl.thisSample + ThisCorrection(b), sl.nextSample + NextCorrection(b))
  }

  function LoopMeasure(phase: real): nat
  {
    if phase < 0.0 then 0 else phase.Floor + 1
  }

  /** The edge loop of `process`: while the slave is past the next edge, correct
      for that edge, wrapping on each fall. It stops low below the width or high
      below 1, having dropped the phase by a whole number of periods. */
  function Corrections(sl: Slave, c: Shape): (r: Slave)
    requires LoopDefined(c)
    ensures if r.high then r.phase < 1.0 else r.phase < c.pw
    ensures (if sl.high then sl.phase < 1.0 else sl.phase < c.pw) ==> r == sl
    ensures r.phase <= sl.phase
    ensures sl.phase >= 0.0 ==> r.phase >= 0.0
    decreases LoopMeasure(sl.phase)
  {
    if !sl.high && sl.phase < c.pw then sl
    else
      var risen := if sl.high then sl else Rise(sl, c);
      if risen.phase < 1.0 then risen
      else Corrections(Fall(risen, c), c)
  }

  /** With a width at most 1, a slave starting at or above 0 leaves the loop in
      [0, 1). */
  lemma CorrectionsEndInPeriod(sl: Slave, c: Shape)
    requires LoopDefined(c) && c.pw <= 1.0 && sl.phase >= 0.0
    ensures 0.0 <= Corrections(sl, c).phase < 1.0
  {
  }

  /** `process` divides by the width, by one minus it, by the master increment when
      the master wraps, and in the edge loop as `LoopDefined` says. */
  predicate ShapeDefined(s: ShapeState, masterDelta: real, slaveDelta: real)
  {
    s.pw != 0.0 && s.pw != 1.0 && (s.masterPhase + masterDelta >= 1.0 ==> masterDelta != 0.0) &&
    slaveDelta != 0.0 && s.previousPw - s.pw + slaveDelta != 0.0
  }

  /** The sync window `w (2 - w)` with `w = 4 (1 - p) p`. */
  function Window(masterPhase: real): real
  {
    var w := 4.0 * (1.0 - masterPhase) * masterPhase;
    w * (2.0 - w)
  }

  /** The window lies in [0, 1] over a period: `w` is 1 minus the square of
      `2 p - 1` and the window is 1 minus the square of `1 - w`. */
  lemma {:induction false} WindowInUnitRange(p: real)
    requires 0.0 <= p <= 1.0
    ensures 0.0 <= Window(p) <= 1.0
  {
    var w := 4.0 * (1.0 - p) * p;
    var d := 2.0 * p - 1.0;
    assert w == 1.0 - d * d;
    SquareNonNegative(d);
    ProductNonNegative(4.0 * (1.0 - p), p);
    var e := 1.0 - w;
    assert Window(p) == 1.0 - e * e;
    ProductNonNegative(e, e);
    ProductMonotone(e, 1.0, e);
  }

  /** The window closes at both ends of the period, so the synced correction fades
      out where the master wraps. */
  lemma WindowClosesAtWrap()
    ensures Window(0.0) == 0.0 && Window(1.0) == 0.0
  {
  }

  /** The phasor output: the master phase bent towards its fourth power as the width
      moves away from a half. */
  function ShapedPhasor(masterPhase: real, pw: real): real
  {
    var p2 := masterPhase * masterPhase;
    masterPhase + (p2 * p2 - masterPhase) * Abs(pw - 0.5) * 2.0
  }

  lemma SquareInUnitRange(x: real)
    requires 0.0 <= x <= 1.0
    ensures 0.0 <= x * x <= x
  {
    ProductNonNegative(x, x);
    ProductMonotone(x, 1.0, x);
  }

  /** For widths in [0, 1] the phasor is a cross-fade between the phase and its
      fourth power, so it maps [0, 1] into [0, 1]; at a width of one half it is the
      master phase itself. */
  lemma {:induction false} ShapedPhasorInUnitRange(p: real, pw: real)
    requires 0.0 <= p <= 1.0 && 0.0 <= pw <= 1.0
    ensures 0.0 <= ShapedPhasor(p, pw) <= 1.0
    ensures pw == 0.5 ==> ShapedPhasor(p, pw) == p
  {
    var p2 := p * p;
    SquareInUnitRange(p);
    var p4 := p2 * p2;
    SquareInUnitRange(p2);
    var fade := Abs(pw - 0.5) * 2.0;
    assert (p4 - p) * Abs(pw - 0.5) * 2.0 == (p4 - p) * fade;
    assert ShapedPhasor(p, pw) == CrossFade(p, p4, fade);
  }

  /** Where hard sync restarts the slave: the phase it covers in the part of the
      sample after the master wrapped. */
  function SyncedPhase(resetTime: real, slaveDelta: real): real
  {
    resetTime * slaveDelta
  }

  /** The hard sync: after a reset the slave restarts low at the phase it covered since
      the master wrapped. */
  function Resynced(m: Master, looped: Slave, c: Shape): Slave
  {
    if m.reset then looped.(phase := SyncedPhase(m.resetTime, c.slaveDelta), high := false) else looped
  }

  /** The end of `process`: the hard sync of the slave, the naive sample carried to
      the next call, and the output. */
  function ShapeFinish(s: ShapeState, m: Master, looped: Slave, c: Shape): (ShapeState, real)
  {
    var synced := Resynced(m, looped, c);
    (s.(masterPhase := m.phase, slavePhase := synced.phase, high := synced.high,
        nextSample := synced.nextSample + NaiveAt(synced.phase, c), previousPw := s.pw),
     ShapedPhasor(m.phase, s.pw) + s.phaseModulation * (synced.thisSample * Window(m.phase)))
  }

  /** Hard sync at the end of `process`: after a reset the slave restarts low at the
      phase it covered since the master wrapped; otherwise it stays where the loop left
      it. The parameters are left alone and the width is remembered. */
  lemma FinishSyncs(s: ShapeState, m: Master, looped: Slave, c: Shape)
    ensures var r := ShapeFinish(s, m, looped, c).0;
      (m.reset ==> r.slavePhase == SyncedPhase(m.resetTime, c.slaveDelta) && !r.high) &&
      (!m.reset ==> r.slavePhase == looped.phase && r.high == looped.high) &&
      r.masterPhase == m.phase && r.previousPw == s.pw &&
      r.pw == s.pw && r.waveshape == s.waveshape && r.phaseModulation == s.phaseModulation &&
      r.masterFrequency == s.masterFrequency && r.slaveFrequency == s.slaveFrequency
  {
  }

  /** Without phase modulation the output is the shaped phasor alone. */
  lemma FinishOutput(s: ShapeState, m: Master, looped: Slave, c: Shape)
    requires s.phaseModulation == 0.0
    ensures ShapeFinish(s, m, looped, c).1 == ShapedPhasor(m.phase, s.pw)
  {
  }

  /** The slave after the edge loop, which runs unless the master reset with no slave
      edge before it. */
  function Looped(s: ShapeState, m: Master, c: Shape): Slave
    requires LoopDefined(c)
  {
    var start := Slave(s.slavePhase + c.slaveDelta, s.high, s.nextSample + ResetThis(m), ResetNext(m));
    if m.transition || !m.reset then Corrections(start, c) else start
  }

  /** When the loop runs from a slave at or above 0 it leaves the slave in [0, 1). */
  lemma {:induction false} LoopedInPeriod(s: ShapeState, m: Master, c: Shape)
    requires LoopDefined(c) && c.pw <= 1.0 && s.slavePhase >= 0.0 && c.slaveDelta >= 0.0
    requires m.transition || !m.reset
    ensures 0.0 <= Looped(s, m, c).phase < 1.0
  {
    var start := Slave(s.slavePhase + c.slaveDelta, s.high, s.nextSample + ResetThis(m), ResetNext(m));
    CorrectionsEndInPeriod(start, c);
  }

  /** One call of `process` with the master and slave increments (frequency over
      sample rate): the new state and the output sample. */
  function ShapeStep(s: ShapeState, masterDelta: real, slaveDelta: real): (ShapeState, real)
    requires ShapeDefined(s, masterDelta, slaveDelta)
  {
    var c := ShapeOf(s, slaveDelta);
    var m := AdvanceMaster(s, masterDelta, c);
    ShapeFinish(s, m, Looped(s, m, c), c)
  }

  /** Hard sync over a whole step: when the master wraps, the slave restarts low at
      the reset time times its increment. */
  lemma {:induction false} SyncResetsSlave(s: ShapeState, masterDelta: real, slaveDelta: real)
    requires ShapeDefined(s, masterDelta, slaveDelta)
    ensures var c := ShapeOf(s, slaveDelta);
      var m := AdvanceMaster(s, masterDelta, c);
      var r := ShapeStep(s, masterDelta, slaveDelta).0;
      (m.reset ==> r.slavePhase == SyncedPhase(m.resetTime, slaveDelta) && !r.high) &&
      r.masterPhase == m.phase && r.previousPw == s.pw &&
      r.pw == s.pw && r.waveshape == s.waveshape && r.phaseModulation == s.phaseModulation &&
      r.masterFrequency == s.masterFrequency && r.slaveFrequency == s.slaveFrequency
  {
    var c := ShapeOf(s, slaveDelta);
    var m := AdvanceMaster(s, masterDelta, c);
    FinishSyncs(s, m, Looped(s, m, c), c);
  }

  /** Both phases in [0, 1) and a width strictly inside (0, 1). */
  predicate ShapeValid(s: ShapeState)
  {
    0.0 <= s.masterPhase < 1.0 && 0.0 <= s.slavePhase < 1.0 && 0.0 < s.pw < 1.0
  }

  /** A reset time in [0, 1) times an increment in (0, 1] is in [0, 1). */
  lemma ResetPhaseInPeriod(resetTime: real, slaveDelta: real)
    requires 0.0 <= resetTime < 1.0 && 0.0 < slaveDelta <= 1.0
    ensures 0.0 <= SyncedPhase(resetTime, slaveDelta) < 1.0
  {
    ProductNonNegative(resetTime, slaveDelta);
    ProductMonotone(resetTime, 1.0, slaveDelta);
  }

  /** With increments in (0, 1], a step keeps both phases in [0, 1): the master wraps
      at most once, the edge loop leaves the slave below 1, and a reset puts it at a
      fraction of one increment. */
  lemma {:induction false} ShapeStepKeepsValid(s: ShapeState, masterDelta: real, slaveDelta: real)
    requires ShapeValid(s) && 0.0 < masterDelta <= 1.0 && 0.0 < slaveDelta <= 1.0
    requires s.previousPw - s.pw + slaveDelta != 0.0
    ensures ShapeValid(ShapeStep(s, masterDelta, slaveDelta).0)
  {
    var c := ShapeOf(s, slaveDelta);
    var m := AdvanceMaster(s, masterDelta, c);
    MasterWrapsOnce(s, masterDelta, c);
    FinishSyncs(s, m, Looped(s, m, c), c);
    if m.reset {
      ResetPhaseInPeriod(m.resetTime, slaveDelta);
    } else {
      LoopedInPeriod(s, m, c);
    }
  }

  /** Nothing sets the phase modulation away from its default 0; then it stays 0 and
      the output is the shaped phasor of the new master phase, in [0, 1] once the new
      state is valid. */
  lemma {:induction false} OutputIsShapedPhasor(s: ShapeState, masterDelta: real, slaveDelta: real)
    requires ShapeDefined(s, masterDelta, slaveDelta) && s.phaseModulation == 0.0
    ensures var r := ShapeStep(s, masterDelta, slaveDelta);
      r.1 == ShapedPhasor(r.0.masterPhase, s.pw) && r.0.phaseModulation == 0.0 &&
      (ShapeValid(r.0) ==> 0.0 <= r.1 <= 1.0)
  {
    var c := ShapeOf(s, slaveDelta);
    var m := AdvanceMaster(s, masterDelta, c);
    FinishSyncs(s, m, Looped(s, m, c), c);
    FinishOutput(s, m, Looped(s, m, c), c);
    var r := ShapeStep(s, masterDelta, slaveDelta);
    if ShapeValid(r.0) {
      ShapedPhasorInUnitRange(r.0.masterPhase, s.pw);
    }
  }

  /** `VariableShapeOscillator`. */
  class VariableShapeOscillator {
    var pw: real
    var waveshape: real
    var masterFrequency: real
    var slaveFrequency: real
    var phaseModulation: real
    var masterPhase: real
    var slavePhase: real
    var nextSample: real
    var previousPw: real
    var high: bool

    function State(): ShapeState
      reads this
    {
      ShapeState(pw, waveshape, masterFrequency, slaveFrequency, phaseModulation,
                 masterPhase, slavePhase, nextSample, previousPw, high)
    }

    constructor Default()
      ensures State() == DEFAULT_SHAPE
    {
      masterPhase := 0.0;
      slavePhase := 0.0;
      nextSample := 0.0;
      previousPw := 0.5;
      high := false;
      pw := 0.5;
      waveshape := 0.0;
      masterFrequency := 0.0;
      slaveFrequency := 0.0;
      phaseModulation := 0.0;
    }

    /** `prepare`: keep the width away from the ends, as the variable saw does, and
        store the waveshape. */
    method Prepare(pw: real, waveshape: real, frequency: real, sampleRate: real)
      requires sampleRate != 0.0
      modifies this`pw, this`waveshape
      ensures State() == old(State()).(pw := VariableSaw.PreparedPw(pw, frequency / sampleRate),
                                       waveshape := waveshape)
    {
      var phaseDelta := frequency / sampleRate;
      var pw' := if phaseDelta >= 0.25 then 0.5 else Clamp(pw, phaseDelta * 2.0, 1.0 - 2.0 * phaseDelta);
      this.pw := pw';
      this.waveshape := waveshape;
    }

    /** The sync block of `process`: advance the master and, when it wraps, restart
        the slave's correction at the reset. */
    method Sync(ghost s: ShapeState, c: Shape, thisSample: real, masterPhaseDelta: real)
      returns (thisSample': real, reset: bool, transitionDuringReset: bool, resetTime: real)
      requires s.masterPhase == masterPhase && s.slavePhase == slavePhase && s.high == high
      requires c.pw == pw && nextSample == 0.0
      requires masterPhase + masterPhaseDelta >= 1.0 ==> masterPhaseDelta != 0.0
      modifies this`masterPhase, this`nextSample
      ensures var m := AdvanceMaster(s, masterPhaseDelta, c);
        masterPhase == m.phase && reset == m.reset && transitionDuringReset == m.transition &&
        resetTime == m.resetTime && thisSample' == thisSample + ResetThis(m) && nextSample == ResetNext(m)
    {
      thisSample' := thisSample;
      reset, transitionDuringReset, resetTime := false, false, 0.0;
      masterPhase := masterPhase + masterPhaseDelta;
      if masterPhase >= 1.0 {
        masterPhase := masterPhase - 1.0;
        resetTime := masterPhase / masterPhaseDelta;
        reset := true;
        thisSample', transitionDuringReset := Reset(c, thisSample', resetTime);
      }
    }

    /** The slave at the reset: wrap it once if it passed 1, note an edge crossed
        before the reset, and remove its naive value there as a step. */
    method Reset(c: Shape, thisSample: real, resetTime: real) returns (thisSample': real, transitionDuringReset: bool)
      requires c.pw == pw && nextSample == 0.0
      modifies this`nextSample
      ensures var m := AtReset(masterPhase, resetTime, SlaveAtReset(slavePhase, resetTime, c.slaveDelta), high, c);
        transitionDuringReset == m.transition && thisSample' == thisSample + ResetThis(m) && nextSample == ResetNext(m)
    {
      ghost var m := AtReset(masterPhase, resetTime, SlaveAtReset(slavePhase, resetTime, c.slaveDelta), high, c);
      var slavePhaseAtReset := slavePhase + (1.0 - resetTime) * c.slaveDelta;
      assert slavePhaseAtReset == SlaveAtReset(slavePhase, resetTime, c.slaveDelta);
      transitionDuringReset := false;

      if slavePhaseAtReset >= 1.0 {
        slavePhaseAtReset := slavePhaseAtReset - 1.0;
        transitionDuringReset := true;
      }

      if !high && slavePhaseAtReset >= pw {
        transitionDuringReset := true;
      }

      var value := NaiveShape(slavePhaseAtReset, pw, c.slopeUp, c.slopeDown, c.triangleAmount, c.squareAmount);
      assert Bleps(-value, 0.0, resetTime) == ResetBleps(m);

      thisSample', nextSample := ApplyBleps(thisSample, nextSample, -value, 0.0, resetTime);
    }

    /** The rising edge in the loop of `process`. */
    method RiseEdge(c: Shape, thisSample: real) returns (thisSample': real)
      requires LoopDefined(c) && c.pw == pw && c.previousPw == previousPw
      modifies this`high, this`nextSample
      ensures Slave(slavePhase, high, thisSample', nextSample) ==
              Rise(Slave(slavePhase, old(high), thisSample, old(nextSample)), c)
    {
      ghost var sl := Slave(slavePhase, high, thisSample, nextSample);
      var t := (slavePhase - pw) / (previousPw - pw + c.slaveDelta);
      var triangleStep := (c.slopeUp + c.slopeDown) * c.slaveDelta * c.triangleAmount;
      assert Bleps(c.squareAmount, triangleStep, t) == RiseBleps(sl, c);

      thisSample', nextSample := ApplyBleps(thisSample, nextSample, c.squareAmount, triangleStep, t);

      high := true;
    }

    /** The falling edge in the loop of `process`: wrap, then correct. */
    method FallEdge(c: Shape, thisSample: real) returns (thisSample': real)
      requires LoopDefined(c)
      modifies this`slavePhase, this`high, this`nextSample
      ensures Slave(slavePhase, high, thisSample', nextSample) ==
              Fall(Slave(old(slavePhase), old(high), thisSample, old(nextSample)), c)
    {
      slavePhase := slavePhase - 1.0;

      var t := slavePhase / c.slaveDelta;
      var triangleStep := (c.slopeUp + c.slopeDown) * c.slaveDelta * c.triangleAmount;
      assert Bleps(-(1.0 - c.triangleAmount), -triangleStep, t) == FallBleps(slavePhase, c);

      thisSample', nextSample := ApplyBleps(thisSample, nextSample, -(1.0 - c.triangleAmount), -triangleStep, t);

      high := false;
    }

    /** The edge loop of `process`, run only when `run` holds. */
    method CorrectEdges(c: Shape, thisSample: real, run: bool) returns (thisSample': real)
      requires LoopDefined(c) && c.pw == pw && c.previousPw == previousPw
      modifies this`slavePhase, this`high, this`nextSample
      ensures var start := Slave(old(slavePhase), old(high), thisSample, old(nextSample));
        Slave(slavePhase, high, thisSample', nextSample) == if run then Corrections(start, c) else start
    {
      thisSample' := thisSample;
      ghost var start := Slave(slavePhase, high, thisSample, nextSample);
      ghost var target := if run then Corrections(start, c) else start;
      while run
        invariant run ==> Corrections(Slave(slavePhase, high, thisSample', nextSample), c) == target
        invariant !run ==> Slave(slavePhase, high, thisSample', nextSample) == start
        decreases LoopMeasure(slavePhase)
      {
        if !high {
          if slavePhase < pw {
            break;
          }
          thisSample' := RiseEdge(c, thisSample');
        }

        if high {
          if slavePhase < 1.0 {
            break;
          }
          thisSample' := FallEdge(c, thisSample');
        }
      }
    }

    /** The end of `process`: the hard sync, the naive sample carried on, and the
        output. */
    method Finish(ghost s: ShapeState, ghost m: Master, ghost looped: Slave, c: Shape,
                  thisSample: real, reset: bool, resetTime: real) returns (output: real)
      requires looped == Slave(slavePhase, high, thisSample, nextSample)
      requires m.reset == reset && m.resetTime == resetTime && m.phase == masterPhase
      requires s.pw == pw && s.waveshape == waveshape && s.masterFrequency == masterFrequency
      requires s.slaveFrequency == slaveFrequency && s.phaseModulation == phaseModulation
      requires c.pw == pw
      modifies this`slavePhase, this`high, this`nextSample, this`previousPw
      ensures (State(), output) == ShapeFinish(s, m, looped, c)
    {
      if reset {
        slavePhase := resetTime * c.slaveDelta;
        high := false;
        assert slavePhase == SyncedPhase(m.resetTime, c.slaveDelta);
      }

      nextSample := nextSample + NaiveShape(slavePhase, pw, c.slopeUp, c.slopeDown, c.triangleAmount, c.squareAmount);
      previousPw := pw;

      var phasor := ShapedPhasor(masterPhase, pw);
      output := phasor + phaseModulation * (thisSample * Window(masterPhase));
      assert output == ShapeFinish(s, m, looped, c).1;
      assert State() == ShapeFinish(s, m, looped, c).0;
    }

    /** `process`. */
    method Process(masterFrequency: real, slaveFrequency: real, sampleRate: real) returns (output: real)
      requires sampleRate != 0.0
      requires ShapeDefined(State(), masterFrequency / sampleRate, slaveFrequency / sampleRate)
      modifies this
      ensures (State(), output) == ShapeStep(old(State()), masterFrequency / sampleRate, slaveFrequency / sampleRate)
    {
      ghost var before := State();
      var thisSample := nextSample;
      nextSample := 0.0;

      var masterPhaseDelta := masterFrequency / sampleRate;
      var slavePhaseDelta := slaveFrequency / sampleRate;
      var squareAmount := Max(waveshape - 0.5, 0.0) * 2.0;
      var triangleAmount := Max(1.0 - waveshape - 2.0, 0.0);

      var slopeUp := 1.0 / pw;
      var slopeDown := 1.0 / (1.0 - pw);
      var c := Shape(pw, previousPw, slavePhaseDelta, slopeUp, slopeDown, triangleAmount, squareAmount);
      assert c == ShapeOf(before, slavePhaseDelta);

      var reset, transitionDuringReset, resetTime;
      thisSample, reset, transitionDuringReset, resetTime := Sync(before, c, thisSample, masterPhaseDelta);
      ghost var m := AdvanceMaster(before, masterPhaseDelta, c);

      slavePhase := slavePhase + slavePhaseDelta;
      ghost var start := Slave(slavePhase, high, thisSample, nextSample);
      assert start == Slave(before.slavePhase + slavePhaseDelta, before.high,
                            before.nextSample + ResetThis(m), ResetNext(m));
      thisSample := CorrectEdges(c, thisSample, transitionDuringReset || !reset);
      ghost var looped := Slave(slavePhase, high, thisSample, nextSample);

      output := Finish(before, m, looped, c, thisSample, reset, resetTime);
    }
  }
}
