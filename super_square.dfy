/** The hard-synced "super square" of `src/oscillator/super_square.rs`: a master phase
    whose wrap resets a slave square wave, with BLEP corrections at every edge of the
    square and at the reset. The two smoothed frequencies (already divided by the
    sample rate) are inputs of `process`; `prepare` only sets their targets. */
module SuperSquare {

  import opened Util
  import opened Blep

  const MAX_FREQUENCY: real := 0.25
  const MIN_FREQUENCY: real := 0.000001

  /** The slave/master frequency ratio for a shape: linear from 0.51 up to 1 below the
      middle, then quadratic up to 5 at shape 1. */
  function SlaveRatio(shape: real): (ratio: real)
    ensures 0.0 <= shape < 0.5 ==> 0.51 <= ratio < 1.0
    ensures 0.5 <= shape <= 1.0 ==> 1.0 <= ratio <= 5.0
  {
    if shape < 0.5 then 0.51 + 0.98 * shape
    else
      var d := shape - 0.5;
      assert 0.0 <= d <= 0.5 ==> d * d <= 0.25 by {
        if 0.0 <= d <= 0.5 {
          ProductMonotone(d, 0.5, d);
          ProductMonotone(d, 0.5, 0.5);
        }
      }
      SquareNonNegative(d);
      1.0 + 16.0 * d * d
  }

  /** The two branches meet at the middle, where slave and master run together. */
  lemma SlaveRatioContinuous()
    ensures SlaveRatio(0.5) == 1.0
    ensures 0.51 + 0.98 * 0.5 == 1.0
  {
  }

  /** The ratio never decreases as the shape grows over [0, 1]. */
  lemma {:induction false} SlaveRatioMonotone(a: real, b: real)
    requires 0.0 <= a <= b <= 1.0
    ensures SlaveRatio(a) <= SlaveRatio(b)
  {
    if a >= 0.5 {
      var da, db := a - 0.5, b - 0.5;
      ProductMonotone(da, db, da);
      ProductMonotone(da, db, db);
    }
  }

  /** The fields of a `SuperSquareOscillator`; the two smoothers are represented by the
      targets `prepare` gives them. */
  datatype SquareState = SquareState(masterPhase: real, slavePhase: real, nextSample: real, high: bool,
                                     masterTarget: real, slaveTarget: real)

  /** `Default`: every phase and the carry at 0, low; the smoothers start at 0. */
  const DEFAULT_SQUARE: SquareState := SquareState(0.0, 0.0, 0.0, false, 0.0, 0.0)

  /** `prepare`: both targets clamped into [MIN_FREQUENCY, MAX_FREQUENCY]. */
  function PreparedTargets(s: SquareState, shape: real, frequency: real): (r: SquareState)
    ensures r == s.(masterTarget := r.masterTarget, slaveTarget := r.slaveTarget)
    ensures MIN_FREQUENCY <= r.masterTarget <= MAX_FREQUENCY
    ensures MIN_FREQUENCY <= r.slaveTarget <= MAX_FREQUENCY
    ensures MIN_FREQUENCY <= frequency <= MAX_FREQUENCY ==> r.masterTarget == frequency
    ensures MIN_FREQUENCY <= frequency * SlaveRatio(shape) <= MAX_FREQUENCY ==>
      r.slaveTarget == frequency * SlaveRatio(shape)
  {
    s.(masterTarget := Clamp(frequency, MIN_FREQUENCY, MAX_FREQUENCY),
       slaveTarget := Clamp(frequency * SlaveRatio(shape), MIN_FREQUENCY, MAX_FREQUENCY))
  }

  /** The square's level: 0 below half a period, 1 from there on. */
  function Level(phase: real): (level: real)
    ensures level == 0.0 <==> phase < 0.5
    ensures level == 1.0 <==> phase >= 0.5
  {
    if phase < 0.5 then 0.0 else 1.0
  }

  /** What the master phase does in one call: the new phase, whether it wrapped (a
      reset of the slave), when within the period it wrapped, whether the slave also
      had an edge of its own in that call, and the slave's level at the reset. */
  datatype MasterStep = MasterStep(masterPhase: real, reset: bool, resetTime: real,
                                   transitionDuringReset: bool, value: real)

  /** The master step on a reset at `resetTime`, the slave having reached `atReset`. */
  function ResetStep(wrappedMaster: real, resetTime: real, atReset: real, high: bool): MasterStep
  {
    var wrapped := if atReset >= 1.0 then atReset - 1.0 else atReset;
    var transition := atReset >= 1.0 || (!high && wrapped >= 0.5);
    MasterStep(wrappedMaster, true, resetTime, transition, Level(wrapped))
  }

  function AdvanceMaster(s: SquareState, masterFrequency: real, slaveFrequency: real): (m: MasterStep)
    requires masterFrequency > 0.0
    ensures m.reset <==> s.masterPhase + masterFrequency >= 1.0
    ensures !m.reset ==> m == MasterStep(s.masterPhase + masterFrequency, false, 0.0, false, 0.0)
  {
    var phase := s.masterPhase + masterFrequency;
    if phase >= 1.0 then
      var resetTime := (phase - 1.0) / masterFrequency;
      var atReset := s.slavePhase + (1.0 - resetTime) * slaveFrequency;
      ResetStep(phase - 1.0, resetTime, atReset, s.high)
    else
      MasterStep(phase, false, 0.0, false, 0.0)
  }

  /** On a reset the master wraps once, the reset time is the fraction of the
      increment past the wrap, and `transition_during_reset` is set exactly when the
      slave, advanced to the reset, passes 1 or (being low) passes 1/2 after any wrap. */
  lemma ResetDetails(s: SquareState, masterFrequency: real, slaveFrequency: real,
                     resetTime: real, atReset: real, wrapped: real)
    requires masterFrequency > 0.0 && s.masterPhase + masterFrequency >= 1.0
    requires resetTime == (s.masterPhase + masterFrequency - 1.0) / masterFrequency
    requires atReset == s.slavePhase + (1.0 - resetTime) * slaveFrequency
    requires wrapped == if atReset >= 1.0 then atReset - 1.0 else atReset
    ensures var m := AdvanceMaster(s, masterFrequency, slaveFrequency);
      m.masterPhase == s.masterPhase + masterFrequency - 1.0 &&
      m.resetTime == resetTime &&
      (m.transitionDuringReset <==> atReset >= 1.0 || (!s.high && wrapped >= 0.5)) &&
      m.value == Level(wrapped)
  {
    assert AdvanceMaster(s, masterFrequency, slaveFrequency)
        == ResetStep(s.masterPhase + masterFrequency - 1.0, resetTime, atReset, s.high);
  }

  /** With the master phase in [0, 1) and a frequency in (0, 1), the master phase wraps
      at most once and stays in [0, 1), and a reset happens within the period. */
  lemma {:induction false} MasterStaysInRange(s: SquareState, masterFrequency: real, slaveFrequency: real)
    requires 0.0 <= s.masterPhase < 1.0 && 0.0 < masterFrequency < 1.0
    ensures var m := AdvanceMaster(s, masterFrequency, slaveFrequency);
      0.0 <= m.masterPhase < 1.0 && (m.reset ==> 0.0 <= m.resetTime < 1.0)
  {
    var m := AdvanceMaster(s, masterFrequency, slaveFrequency);
    if m.reset {
      var resetTime := (s.masterPhase + masterFrequency - 1.0) / masterFrequency;
      var atReset := s.slavePhase + (1.0 - resetTime) * slaveFrequency;
      ResetDetails(s, masterFrequency, slaveFrequency, resetTime, atReset,
                   if atReset >= 1.0 then atReset - 1.0 else atReset);
      QuotientBelowOne(m.masterPhase, masterFrequency);
    }
  }

  /** The slave's phase, level and the two samples being built, at any point of the
      correction loop. */
  datatype Slave = Slave(phase: real, high: bool, thisSample: real, nextSample: real)

  /** The number of wraps the loop can still take. */
  function WrapsLeft(phase: real): nat
  {
    if phase < 1.0 then 0 else phase.Floor
  }

  /** The correction loop: a rising edge at 1/2 (if low) and a falling edge at the wrap
      (if high), each smoothed with a BLEP, until the slave is below its next edge. */
  function SyncLoop(v: Slave, slaveFrequency: real): (r: Slave)
    requires slaveFrequency > 0.0
    decreases WrapsLeft(v.phase)
  {
    if !v.high && v.phase < 0.5 then v
    else
      var risen :=
        if !v.high then
          var t := (v.phase - 0.5) / slaveFrequency;
          Slave(v.phase, true, v.thisSample + ThisBlep(t), v.nextSample + NextBlep(t))
        else v;
      if risen.phase < 1.0 then risen
      else
        var phase := risen.phase - 1.0;
        var t := phase / slaveFrequency;
        SyncLoop(Slave(phase, false, risen.thisSample - ThisBlep(t), risen.nextSample - NextBlep(t)),
                 slaveFrequency)
  }

  /** The slave is in [0, 1) and high exactly in the second half of its period. */
  predicate SlaveValid(phase: real, high: bool)
  {
    0.0 <= phase < 1.0 && (high <==> phase >= 0.5)
  }

  /** The loop ends below 1 with the level matching the phase, whenever it starts at a
      non-negative phase that is at least 1/2 if the slave is high. */
  lemma {:induction false} SyncLoopSettles(v: Slave, slaveFrequency: real)
    requires slaveFrequency > 0.0 && 0.0 <= v.phase && (v.high ==> v.phase >= 0.5)
    ensures var r := SyncLoop(v, slaveFrequency); SlaveValid(r.phase, r.high)
    decreases WrapsLeft(v.phase)
  {
    if !v.high && v.phase < 0.5 {
    } else if v.phase >= 1.0 {
      var risen :=
        if !v.high then
          var t := (v.phase - 0.5) / slaveFrequency;
          Slave(v.phase, true, v.thisSample + ThisBlep(t), v.nextSample + NextBlep(t))
        else v;
      var phase := risen.phase - 1.0;
      var t := phase / slaveFrequency;
      SyncLoopSettles(Slave(phase, false, risen.thisSample - ThisBlep(t), risen.nextSample - NextBlep(t)),
                      slaveFrequency);
    }
  }

  /** Below 1/2 with the slave low, the loop does nothing. */
  lemma SyncLoopIdle(v: Slave, slaveFrequency: real)
    requires slaveFrequency > 0.0 && !v.high && v.phase < 0.5
    ensures SyncLoop(v, slaveFrequency) == v
  {
  }

  /** The slave as the loop finds it: advanced by its increment, with the reset's BLEP
      (the slave's level at the reset, removed) in the two samples. */
  function LoopStart(s: SquareState, m: MasterStep, slaveFrequency: real): (v: Slave)
    ensures v.phase == s.slavePhase + slaveFrequency && v.high == s.high
    ensures !m.reset ==> v.thisSample == s.nextSample && v.nextSample == 0.0
  {
    if m.reset
    then Slave(s.slavePhase + slaveFrequency, s.high,
               s.nextSample - m.value * ThisBlep(m.resetTime), 0.0 - m.value * NextBlep(m.resetTime))
    else Slave(s.slavePhase + slaveFrequency, s.high, s.nextSample, 0.0)
  }

  /** The slave after the correction loop, which runs unless there was a reset
      without a transition of the slave's own. */
  function Synced(m: MasterStep, start: Slave, slaveFrequency: real): Slave
    requires slaveFrequency > 0.0
  {
    if m.transitionDuringReset || !m.reset then SyncLoop(start, slaveFrequency) else start
  }

  /** The end of `process`: a reset restarts the slave, low, at the point of the
      period where the master wrapped; the new level is carried to the next sample and
      the output is scaled to [-1, 1]. */
  function Finish(s: SquareState, m: MasterStep, synced: Slave, slaveFrequency: real): (r: (SquareState, real))
  {
    var phase := if m.reset then m.resetTime * slaveFrequency else synced.phase;
    var high := if m.reset then false else synced.high;
    (SquareState(m.masterPhase, phase, synced.nextSample + Level(phase), high, s.masterTarget, s.slaveTarget),
     2.0 * synced.thisSample - 1.0)
  }

  /** One call of `process` with the two smoothed frequencies: the new state and the
      output sample. */
  function SquareStep(s: SquareState, masterFrequency: real, slaveFrequency: real): (r: (SquareState, real))
    requires masterFrequency > 0.0 && slaveFrequency > 0.0
  {
    var m := AdvanceMaster(s, masterFrequency, slaveFrequency);
    Finish(s, m, Synced(m, LoopStart(s, m, slaveFrequency), slaveFrequency), slaveFrequency)
  }

  /** Both phases in [0, 1), the slave high exactly in its second half. */
  predicate SquareValid(s: SquareState)
  {
    0.0 <= s.masterPhase < 1.0 && SlaveValid(s.slavePhase, s.high)
  }

  /** With both smoothed frequencies in (0, 1/4], as the clamped targets keep them, every
      call keeps the state valid. */
  lemma {:induction false} SquareStepKeepsValid(s: SquareState, masterFrequency: real, slaveFrequency: real)
    requires SquareValid(s)
    requires 0.0 < masterFrequency <= MAX_FREQUENCY && 0.0 < slaveFrequency <= MAX_FREQUENCY
    ensures SquareValid(SquareStep(s, masterFrequency, slaveFrequency).0)
  {
    var m := AdvanceMaster(s, masterFrequency, slaveFrequency);
    MasterStaysInRange(s, masterFrequency, slaveFrequency);
    if m.reset {
      ProductMonotone(m.resetTime, 1.0, slaveFrequency);
      ProductNonNegative(m.resetTime, slaveFrequency);
    } else {
      var start := Slave(s.slavePhase + slaveFrequency, s.high, s.nextSample, 0.0);
      SyncLoopSettles(start, slaveFrequency);
    }
  }

  /** `SuperSquareOscillator`. */
  class SuperSquareOscillator {
    var masterPhase: real
    var slavePhase: real
    var nextSample: real
    var high: bool
    var masterTarget: real
    var slaveTarget: real

    function State(): SquareState
      reads this
    {
      SquareState(masterPhase, slavePhase, nextSample, high, masterTarget, slaveTarget)
    }

    constructor Default()
      ensures State() == DEFAULT_SQUARE
    {
      masterPhase, slavePhase, nextSample, high := 0.0, 0.0, 0.0, false;
      masterTarget, slaveTarget := 0.0, 0.0;
    }

    method Prepare(shape: real, frequency: real)
      modifies this
      ensures State() == PreparedTargets(old(State()), shape, frequency)
    {
      var slaveFrequency := if shape < 0.5
        then frequency * (0.51 + 0.98 * shape)
        else frequency * (1.0 + 16.0 * (shape - 0.5) * (shape - 0.5));
      masterTarget := Clamp(frequency, MIN_FREQUENCY, MAX_FREQUENCY);
      slaveTarget := Clamp(slaveFrequency, MIN_FREQUENCY, MAX_FREQUENCY);
    }

    /** The loop of `process`, on the slave fields and the two samples. Its condition
        does not change inside it, so it runs only to a `break`, once the slave is below
        its next edge. */
    method Sync(thisSample: real, slaveFrequency: real, reset: bool, transitionDuringReset: bool,
                ghost m: MasterStep, ghost start: Slave)
      returns (thisSample': real)
      requires slaveFrequency > 0.0
      requires reset == m.reset && transitionDuringReset == m.transitionDuringReset
      requires Slave(slavePhase, high, thisSample, nextSample) == start
      modifies this
      ensures Slave(slavePhase, high, thisSample', nextSample) == Synced(m, start, slaveFrequency)
      ensures masterPhase == old(masterPhase) && masterTarget == old(masterTarget)
      ensures slaveTarget == old(slaveTarget)
    {
      thisSample' := thisSample;
      ghost var goal := SyncLoop(Slave(slavePhase, high, thisSample, nextSample), slaveFrequency);
      while transitionDuringReset || !reset
        invariant SyncLoop(Slave(slavePhase, high, thisSample', nextSample), slaveFrequency) == goal
        invariant !(transitionDuringReset || !reset) ==>
          Slave(slavePhase, high, thisSample', nextSample) == Slave(old(slavePhase), old(high), thisSample, old(nextSample))
        invariant masterPhase == old(masterPhase) && masterTarget == old(masterTarget)
        invariant slaveTarget == old(slaveTarget)
        decreases WrapsLeft(slavePhase)
      {
        if !high {
          if slavePhase < 0.5 {
            break;
          }
          var t := (slavePhase - 0.5) / slaveFrequency;
          thisSample' := thisSample' + ThisBlep(t);
          nextSample := nextSample + NextBlep(t);
          high := true;
        }

        if high {
          if slavePhase < 1.0 {
            break;
          }

          slavePhase := slavePhase - 1.0;
          var t := slavePhase / slaveFrequency;
          thisSample' := thisSample' - ThisBlep(t);
          nextSample := nextSample - NextBlep(t);
          high := false;
        }
      }
    }

    /** The master half of `process`: advance the master and, if it wraps, remove the
        slave's level at the reset with a BLEP. The state on entry is `s` with the
        carry moved to `thisSample`. */
    method AdvanceMasterPhase(ghost s: SquareState, thisSample: real, masterFrequency: real, slaveFrequency: real)
      returns (thisSample': real, reset: bool, transitionDuringReset: bool, resetTime: real)
      requires masterFrequency > 0.0
      requires State() == s.(nextSample := 0.0) && thisSample == s.nextSample
      modifies this
      ensures var m := AdvanceMaster(s, masterFrequency, slaveFrequency);
        masterPhase == m.masterPhase && reset == m.reset &&
        transitionDuringReset == m.transitionDuringReset && (reset ==> resetTime == m.resetTime) &&
        Slave(slavePhase + slaveFrequency, high, thisSample', nextSample) == LoopStart(s, m, slaveFrequency)
      ensures slavePhase == s.slavePhase && high == s.high
      ensures masterTarget == s.masterTarget && slaveTarget == s.slaveTarget
    {
      ghost var m := AdvanceMaster(s, masterFrequency, slaveFrequency);
      reset := false;
      transitionDuringReset := false;
      resetTime := 0.0;
      thisSample' := thisSample;

      masterPhase := masterPhase + masterFrequency;
      if masterPhase >= 1.0 {
        masterPhase := masterPhase - 1.0;
        resetTime := masterPhase / masterFrequency;

        var slavePhaseAtReset := slavePhase + (1.0 - resetTime) * slaveFrequency;
        reset := true;
        ghost var atReset := slavePhaseAtReset;

        if slavePhaseAtReset >= 1.0 {
          slavePhaseAtReset := slavePhaseAtReset - 1.0;
          transitionDuringReset := true;
        }
        if !high && slavePhaseAtReset >= 0.5 {
          transitionDuringReset := true;
        }

        var value := if slavePhaseAtReset < 0.5 then 0.0 else 1.0;
        ResetDetails(s, masterFrequency, slaveFrequency, resetTime, atReset, slavePhaseAtReset);

        thisSample' := thisSample' - value * ThisBlep(resetTime);
        nextSample := nextSample - value * NextBlep(resetTime);
      }
    }

    /** The end of `process`: restart the slave on a reset, carry the new level and
        scale the output. */
    method Restart(ghost s: SquareState, ghost m: MasterStep, ghost synced: Slave,
                   thisSample: real, slaveFrequency: real, reset: bool, resetTime: real)
      returns (output: real)
      requires reset == m.reset && (reset ==> resetTime == m.resetTime)
      requires Slave(slavePhase, high, thisSample, nextSample) == synced
      requires masterPhase == m.masterPhase
      requires masterTarget == s.masterTarget && slaveTarget == s.slaveTarget
      modifies this
      ensures (State(), output) == Finish(s, m, synced, slaveFrequency)
    {
      if reset {
        slavePhase := resetTime * slaveFrequency;
        high := false;
      }
      ghost var level := Level(slavePhase);

      nextSample := nextSample + if slavePhase < 0.5 then 0.0 else 1.0;

      output := 2.0 * thisSample - 1.0;
      ghost var f := Finish(s, m, synced, slaveFrequency);
      assert masterPhase == f.0.masterPhase;
      assert slavePhase == f.0.slavePhase;
      assert high == f.0.high;
      assert nextSample == f.0.nextSample;
      assert masterTarget == f.0.masterTarget;
      assert slaveTarget == f.0.slaveTarget;
      assert output == f.1;
    }

    /** `process`, given the two values the smoothers produce for this sample. */
    method Process(masterFrequency: real, slaveFrequency: real) returns (output: real)
      requires masterFrequency > 0.0 && slaveFrequency > 0.0
      modifies this
      ensures (State(), output) == SquareStep(old(State()), masterFrequency, slaveFrequency)
    {
      ghost var before := State();
      ghost var m := AdvanceMaster(before, masterFrequency, slaveFrequency);
      ghost var start := LoopStart(before, m, slaveFrequency);

      var thisSample := nextSample;
      nextSample := 0.0;

      var reset, transitionDuringReset, resetTime;
      thisSample, reset, transitionDuringReset, resetTime :=
        AdvanceMasterPhase(before, thisSample, masterFrequency, slaveFrequency);

      slavePhase := slavePhase + slaveFrequency;
      thisSample := Sync(thisSample, slaveFrequency, reset, transitionDuringReset, m, start);
      output := Restart(before, m, Synced(m, start, slaveFrequency), thisSample, slaveFrequency, reset, resetTime);
    }
  }
}
