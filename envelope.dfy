/** The ADSR envelope of `src/envelope.rs`: a five-stage state machine advanced
    once per sample. `timer` counts the time since the last trigger; `stepTimer`
    counts the time spent in the current ramp and is what decides the automatic
    stage transitions. */
module Envelope {

  datatype EnvelopeStage = Attack | Decay | Sustain | Release | Idle

  datatype EnvelopeEvent = Attack | Release

  /** Linear interpolation from `from` (value 0) to `to` (value 1). */
  function Interpolate(value: real, from: real, to: real): (r: real)
    ensures value == 0.0 ==> r == from
    ensures value == 1.0 ==> r == to
    ensures r - from == (to - from) * value
  {
    from * (1.0 - value) + to * value
  }

  /** The fields of an `ADSR` as a value. */
  datatype EnvelopeState = EnvelopeState(
    attack: real, decay: real, sustain: real, release: real,
    stage: EnvelopeStage, stepTimer: real, timer: real)

  /** The default envelope: 50 ms attack, 1 ms decay, sustain 0.8, 1 s release, idle. */
  const DEFAULT_ENVELOPE: EnvelopeState :=
    EnvelopeState(0.05, 0.001, 0.8, 1.0, EnvelopeStage.Idle, 0.1, 0.0)

  /** The four user parameters are the same in both states. */
  predicate SameParams(a: EnvelopeState, b: EnvelopeState)
  {
    a.attack == b.attack && a.decay == b.decay && a.sustain == b.sustain && a.release == b.release
  }

  /** An envelope is active, and its voice sounding, until it has gone idle. */
  predicate Active(e: EnvelopeState)
  {
    e.stage != EnvelopeStage.Idle
  }

  function ResetEnvelope(e: EnvelopeState): (r: EnvelopeState)
    ensures r.stage == EnvelopeStage.Idle && !Active(r)
    ensures r.stepTimer == e.release && r.timer == 0.0
    ensures SameParams(r, e)
  {
    e.(stage := EnvelopeStage.Idle, stepTimer := e.release, timer := 0.0)
  }

  /** Legal from every stage: both timers restart and the stage follows the event. */
  function TriggerEnvelope(e: EnvelopeState, event: EnvelopeEvent): (r: EnvelopeState)
    ensures r.stepTimer == 0.0 && r.timer == 0.0
    ensures event == EnvelopeEvent.Attack ==> r.stage == EnvelopeStage.Attack
    ensures event == EnvelopeEvent.Release ==> r.stage == EnvelopeStage.Release
    ensures Active(r)
    ensures SameParams(r, e)
  {
    var r := e.(stepTimer := 0.0, timer := 0.0);
    match event
    case Attack => r.(stage := EnvelopeStage.Attack)
    case Release => r.(stage := EnvelopeStage.Release)
  }

  /** `next` divides by the sample rate and, mid-ramp, by the ramp's duration. */
  predicate NextDefined(e: EnvelopeState, sampleRate: real)
  {
    && sampleRate != 0.0
    && (e.stage == EnvelopeStage.Attack && e.stepTimer < e.attack ==> e.attack != 0.0)
    && (e.stage == EnvelopeStage.Decay && e.stepTimer < e.decay ==> e.decay != 0.0)
    && (e.stage == EnvelopeStage.Release && e.stepTimer < e.release ==> e.release != 0.0)
  }

  /** One sample of the envelope: the new state and the level it emits. */
  function AdvanceEnvelope(e: EnvelopeState, sampleRate: real): (r: (EnvelopeState, real))
    requires NextDefined(e, sampleRate)
    // every call advances the trigger timer by one sample period, in every stage
    ensures r.0.timer == e.timer + 1.0 / sampleRate
    ensures SameParams(r.0, e)
    // a finished attack emits exactly 1 once and hands over to the decay
    ensures e.stage == EnvelopeStage.Attack && e.stepTimer >= e.attack ==>
      r.1 == 1.0 && r.0.stage == EnvelopeStage.Decay && r.0.stepTimer == 0.0
    // mid-attack the level is the post-increment fraction of the ramp
    ensures e.stage == EnvelopeStage.Attack && e.stepTimer < e.attack ==>
      r.0.stage == EnvelopeStage.Attack && r.0.stepTimer == e.stepTimer + 1.0 / sampleRate
      && r.1 == r.0.stepTimer / e.attack
    // a finished decay emits exactly the sustain level and hands over to the sustain
    ensures e.stage == EnvelopeStage.Decay && e.stepTimer >= e.decay ==>
      r.1 == e.sustain && r.0.stage == EnvelopeStage.Sustain && r.0.stepTimer == 0.0
    ensures e.stage == EnvelopeStage.Decay && e.stepTimer < e.decay ==>
      r.0.stage == EnvelopeStage.Decay && r.0.stepTimer == e.stepTimer + 1.0 / sampleRate
      && r.1 == Interpolate(r.0.stepTimer / e.decay, 1.0, e.sustain)
    // the sustain holds until the next trigger
    ensures e.stage == EnvelopeStage.Sustain ==>
      r.1 == e.sustain && r.0.stage == EnvelopeStage.Sustain && r.0.stepTimer == e.stepTimer
    // a finished release goes idle and emits 0
    ensures e.stage == EnvelopeStage.Release && e.stepTimer >= e.release ==>
      r.1 == 0.0 && r.0.stage == EnvelopeStage.Idle && r.0.stepTimer == 0.0
    // mid-release the ramp starts from the sustain level, not from the current level
    ensures e.stage == EnvelopeStage.Release && e.stepTimer < e.release ==>
      r.0.stage == EnvelopeStage.Release && r.0.stepTimer == e.stepTimer + 1.0 / sampleRate
      && r.1 == Interpolate(r.0.stepTimer / e.release, e.sustain, 0.0)
    // idle is silent and absorbing
    ensures e.stage == EnvelopeStage.Idle ==>
      r.1 == 0.0 && r.0.stage == EnvelopeStage.Idle && r.0.stepTimer == e.stepTimer
  {
    var dt := 1.0 / sampleRate;
    var e := e.(timer := e.timer + dt);
    match e.stage
    case Attack =>
      if e.stepTimer >= e.attack then (e.(stage := EnvelopeStage.Decay, stepTimer := 0.0), 1.0)
      else
        var st := e.stepTimer + dt;
        (e.(stepTimer := st), Interpolate(st / e.attack, 0.0, 1.0))
    case Decay =>
      if e.stepTimer >= e.decay then (e.(stage := EnvelopeStage.Sustain, stepTimer := 0.0), e.sustain)
      else
        var st := e.stepTimer + dt;
        (e.(stepTimer := st), Interpolate(st / e.decay, 1.0, e.sustain))
    case Sustain => (e, e.sustain)
    case Release =>
      if e.stepTimer >= e.release then (e.(stage := EnvelopeStage.Idle, stepTimer := 0.0), 0.0)
      else
        var st := e.stepTimer + dt;
        (e.(stepTimer := st), Interpolate(st / e.release, e.sustain, 0.0))
    case Idle => (e, 0.0)
  }

  /** The attack ramp may overshoot 1 by up to one step: its mid-ramp level stays
      below (attack + 1/sampleRate) / attack, not below 1. */
  lemma {:induction false} AttackOvershootBound(e: EnvelopeState, sampleRate: real)
    requires e.stage == EnvelopeStage.Attack && 0.0 <= e.stepTimer < e.attack
    requires sampleRate > 0.0
    ensures 0.0 < AdvanceEnvelope(e, sampleRate).1 < (e.attack + 1.0 / sampleRate) / e.attack
  {
    var dt := 1.0 / sampleRate;
    var st := e.stepTimer + dt;
    assert 0.0 < dt;
    assert 0.0 < st < e.attack + dt;
    DivideStrictlyMonotone(st, e.attack + dt, e.attack);
  }

  lemma DivideStrictlyMonotone(a: real, b: real, d: real)
    requires 0.0 < a < b && d > 0.0
    ensures 0.0 < a / d < b / d
  {
    assert (b / d - a / d) * d == b - a;
  }

  /** An attack that overshoots: 1 s attack at 2 Hz, 0.75 s into the ramp, emits 1.25. */
  lemma AttackOvershootExample()
    ensures AdvanceEnvelope(EnvelopeState(1.0, 1.0, 0.5, 1.0, EnvelopeStage.Attack, 0.75, 0.0), 2.0).1 == 1.25
  {
  }

  /** The first release sample depends on the sustain level only, whatever level the
      envelope had reached when it was released. */
  lemma ReleaseStartsFromSustain(e: EnvelopeState, sampleRate: real)
    requires e.release > 0.0 && sampleRate > 0.0 && 1.0 / sampleRate <= e.release
    ensures AdvanceEnvelope(TriggerEnvelope(e, EnvelopeEvent.Release), sampleRate).1
         == e.sustain * (1.0 - (1.0 / sampleRate) / e.release)
  {
  }

  /** `step` samples of the envelope from `e`, and the levels emitted. */
  function Run(e: EnvelopeState, sampleRate: real, steps: nat): (r: (EnvelopeState, seq<real>))
    requires sampleRate > 0.0
    requires e.attack > 0.0 && e.decay > 0.0 && e.release > 0.0
    ensures |r.1| == steps && SameParams(r.0, e)
    decreases steps
  {
    if steps == 0 then (e, [])
    else
      var (next, level) := AdvanceEnvelope(e, sampleRate);
      var (last, levels) := Run(next, sampleRate, steps - 1);
      (last, [level] + levels)
  }

  /** Once idle, the envelope stays idle and silent for any number of samples. */
  lemma {:induction false} IdleIsSilent(e: EnvelopeState, sampleRate: real, steps: nat)
    requires sampleRate > 0.0
    requires e.attack > 0.0 && e.decay > 0.0 && e.release > 0.0
    requires e.stage == EnvelopeStage.Idle
    ensures Run(e, sampleRate, steps).0.stage == EnvelopeStage.Idle
    ensures forall i :: 0 <= i < steps ==> Run(e, sampleRate, steps).1[i] == 0.0
    decreases steps
  {
    if steps > 0 {
      var next := AdvanceEnvelope(e, sampleRate).0;
      IdleIsSilent(next, sampleRate, steps - 1);
    }
  }

  /** A release that has `stepTimer >= release - k / sampleRate` left goes idle within
      k + 1 samples: the release always terminates and the voice frees up. */
  lemma {:induction false} ReleaseTerminates(e: EnvelopeState, sampleRate: real, k: nat)
    requires sampleRate > 0.0
    requires e.attack > 0.0 && e.decay > 0.0 && e.release > 0.0
    requires e.stage == EnvelopeStage.Release
    requires e.stepTimer + k as real / sampleRate >= e.release
    ensures Run(e, sampleRate, k + 1).0.stage == EnvelopeStage.Idle
    decreases k
  {
    var next := AdvanceEnvelope(e, sampleRate).0;
    if e.stepTimer >= e.release {
      IdleIsSilent(next, sampleRate, k);
    } else {
      assert k > 0;
      var dt := 1.0 / sampleRate;
      assert next.stepTimer == e.stepTimer + dt;
      assert k as real / sampleRate == dt + (k - 1) as real / sampleRate;
      ReleaseTerminates(next, sampleRate, k - 1);
    }
  }

  /** The `ADSR` struct: parameters are public fields the methods never change. */
  class Adsr {
    var attack: real
    var decay: real
    var sustain: real
    var release: real

    var stage: EnvelopeStage
    var stepTimer: real
    var timer: real

    function Snapshot(): EnvelopeState
      reads this
    {
      EnvelopeState(attack, decay, sustain, release, stage, stepTimer, timer)
    }

    constructor ()
      ensures Snapshot() == DEFAULT_ENVELOPE
    {
      attack := 0.05;
      decay := 0.001;
      sustain := 0.8;
      release := 1.0;
      stage := EnvelopeStage.Idle;
      stepTimer := 0.1;
      timer := 0.0;
    }

    method Reset()
      modifies this
      ensures Snapshot() == ResetEnvelope(old(Snapshot()))
    {
      stage := EnvelopeStage.Idle;
      stepTimer := release;
      timer := 0.0;
    }

    method Trigger(event: EnvelopeEvent)
      modifies this
      ensures Snapshot() == TriggerEnvelope(old(Snapshot()), event)
    {
      stepTimer := 0.0;
      timer := 0.0;
      match event {
        case Attack => stage := EnvelopeStage.Attack;
        case Release => stage := EnvelopeStage.Release;
      }
    }

    method Next(sampleRate: real) returns (level: real)
      requires NextDefined(Snapshot(), sampleRate)
      modifies this
      ensures (Snapshot(), level) == AdvanceEnvelope(old(Snapshot()), sampleRate)
    {
      timer := timer + 1.0 / sampleRate;
      match stage {
        case Attack =>
          if stepTimer >= attack {
            stage := EnvelopeStage.Decay;
            stepTimer := 0.0;
            return 1.0;
          }
          stepTimer := stepTimer + 1.0 / sampleRate;
          level := Interpolate(stepTimer / attack, 0.0, 1.0);
        case Decay =>
          if stepTimer >= decay {
            stage := EnvelopeStage.Sustain;
            stepTimer := 0.0;
            return sustain;
          }
          stepTimer := stepTimer + 1.0 / sampleRate;
          level := Interpolate(stepTimer / decay, 1.0, sustain);
        case Sustain =>
          level := sustain;
        case Release =>
          if stepTimer >= release {
            stage := EnvelopeStage.Idle;
            stepTimer := 0.0;
            return 0.0;
          }
          stepTimer := stepTimer + 1.0 / sampleRate;
          level := Interpolate(stepTimer / release, sustain, 0.0);
        case Idle =>
          level := 0.0;
      }
    }

    /** `is_active`, the envelope-level activity of the current state. */
    function IsActive(): (active: bool)
      reads this
      ensures active == Active(Snapshot())
    {
      stage != EnvelopeStage.Idle
    }
  }
}
