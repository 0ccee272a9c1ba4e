/** One synth voice of `src/voice.rs`: an oscillator engine, a state-variable filter and
    an ADSR envelope, plus the note it plays. Each sample is the oscillator times the
    envelope, filtered, times the gain. The note-to-frequency conversion, the filter's
    tangent and the decibel-to-gain conversion are library functions and come in as
    parameters. */
module Voice {

  import opened Util
  import Engine
  import Filter
  import Envelope

  /** The controls a voice reads for a block. */
  datatype VoiceParams = VoiceParams(oscillatorType: Engine.OscillatorType, shape: real, morph: real,
                                     gain: real, cutoff: real, resonance: real)

  /** The fields of a `Voice` as a value. */
  datatype VoiceState = VoiceState(engine: Engine.EngineState, filter: Filter.SvfState,
                                   envelope: Envelope.EnvelopeState,
                                   note: U8, frequency: real, velocity: real, triggerTime: real)

  predicate IsActive(v: VoiceState)
  {
    Envelope.Active(v.envelope)
  }

  /** `trigger`: the note, its frequency and the velocity are stored and the envelope
      starts its attack. */
  function Triggered(v: VoiceState, note: U8, velocity: real, noteToFreq: U8 -> real): (r: VoiceState)
    ensures r.note == note && r.frequency == noteToFreq(note) && r.velocity == velocity
    ensures r.envelope.stage == Envelope.EnvelopeStage.Attack
    ensures r.envelope.stepTimer == 0.0 && r.envelope.timer == 0.0
    ensures Envelope.SameParams(r.envelope, v.envelope) && IsActive(r)
    ensures r.engine == v.engine && r.filter == v.filter && r.triggerTime == v.triggerTime
  {
    v.(note := note, frequency := noteToFreq(note), velocity := velocity,
       envelope := Envelope.TriggerEnvelope(v.envelope, Envelope.EnvelopeEvent.Attack))
  }

  /** `release`: the envelope starts its release; the voice keeps its note. */
  function Released(v: VoiceState): (r: VoiceState)
    ensures r.envelope.stage == Envelope.EnvelopeStage.Release
    ensures r.envelope.stepTimer == 0.0 && r.envelope.timer == 0.0
    ensures Envelope.SameParams(r.envelope, v.envelope) && IsActive(r)
    ensures r.note == v.note && r.frequency == v.frequency && r.velocity == v.velocity
    ensures r.engine == v.engine && r.filter == v.filter && r.triggerTime == v.triggerTime
  {
    v.(envelope := Envelope.TriggerEnvelope(v.envelope, Envelope.EnvelopeEvent.Release))
  }

  /** A release after a trigger still belongs to the triggered note. */
  lemma ReleaseKeepsTriggeredNote(v: VoiceState, note: U8, velocity: real, noteToFreq: U8 -> real)
    ensures var r := Released(Triggered(v, note, velocity, noteToFreq));
      r.note == note && r.frequency == noteToFreq(note) &&
      r.envelope.stage == Envelope.EnvelopeStage.Release
  {
  }

  /** The engine with the block's oscillator selected. */
  function Selecting(v: VoiceState, params: VoiceParams): Engine.EngineState
  {
    v.engine.(selected := params.oscillatorType)
  }

  function OscillatorControls(params: VoiceParams): Engine.OscillatorParams
  {
    Engine.OscillatorParams(params.shape, params.morph)
  }

  predicate PrepareDefined(v: VoiceState, params: VoiceParams, sampleRate: real)
  {
    Engine.PrepareDefined(Selecting(v, params), OscillatorControls(params), sampleRate)
  }

  /** `prepare_block`: the block's oscillator is selected first and then prepared with
      the voice's note frequency; nothing outside the engine changes. */
  function Prepared(v: VoiceState, params: VoiceParams, sampleRate: real): (r: VoiceState)
    requires PrepareDefined(v, params, sampleRate)
    ensures r.engine.selected == params.oscillatorType
    ensures r.engine == Engine.PreparedEngine(Selecting(v, params), OscillatorControls(params), v.frequency, sampleRate)
    ensures r == v.(engine := r.engine)
  {
    v.(engine := Engine.PreparedEngine(Selecting(v, params), OscillatorControls(params), v.frequency, sampleRate))
  }

  /** What `process` demands: the sample rate and the resonance to divide by, and what
      the engine and the envelope demand. */
  predicate ProcessDefined(v: VoiceState, params: VoiceParams, sm: Engine.Smoothed, sampleRate: real,
                           tan: real -> real)
  {
    && sampleRate != 0.0
    && Filter.CoefficientsDefined(params.cutoff / sampleRate, params.resonance, tan)
    && Engine.ProcessDefined(v.engine, sm, v.frequency, sampleRate)
    && Envelope.NextDefined(v.envelope, sampleRate)
  }

  /** The oscillator's sample under the envelope. */
  function Gated(sample: real, level: real): real
  {
    sample * level
  }

  /** The filtered sample at the output gain. */
  function Gained(sample: real, gain: real): real
  {
    sample * gain
  }

  /** `process`: the filter is tuned to the cutoff, the oscillator's sample is scaled by
      the envelope's level, filtered and scaled by the gain. */
  function VoiceStep(v: VoiceState, params: VoiceParams, sm: Engine.Smoothed, sampleRate: real,
                     tan: real -> real, dbToGain: real -> real): (r: (VoiceState, real))
    requires ProcessDefined(v, params, sm, sampleRate, tan)
    // the note, the velocity and the trigger time are neither read nor written
    ensures r.0.note == v.note && r.0.velocity == v.velocity && r.0.triggerTime == v.triggerTime
  {
    var tuned := Filter.Tuned(v.filter, params.cutoff / sampleRate, params.resonance, tan);
    var osc := Engine.EngineStep(v.engine, sm, v.frequency, sampleRate);
    var env := Envelope.AdvanceEnvelope(v.envelope, sampleRate);
    var filtered := Filter.SvfStep(tuned, Gated(osc.1, env.1));
    (v.(engine := osc.0, envelope := env.0, filter := filtered.0), Gained(filtered.1, dbToGain(params.gain)))
  }

  /** The velocity a note was played with does not change what the voice sounds. */
  lemma VelocityIsNotRead(v: VoiceState, velocity: real, params: VoiceParams, sm: Engine.Smoothed,
                          sampleRate: real, tan: real -> real, dbToGain: real -> real)
    requires ProcessDefined(v, params, sm, sampleRate, tan)
    ensures VoiceStep(v.(velocity := velocity), params, sm, sampleRate, tan, dbToGain).1 ==
            VoiceStep(v, params, sm, sampleRate, tan, dbToGain).1
  {
    var w := v.(velocity := velocity);
    assert w.engine == v.engine && w.envelope == v.envelope && w.filter == v.filter;
    assert w.frequency == v.frequency;
    assert ProcessDefined(w, params, sm, sampleRate, tan);
    assert Engine.EngineStep(w.engine, sm, w.frequency, sampleRate) == Engine.EngineStep(v.engine, sm, v.frequency, sampleRate);
    assert Envelope.AdvanceEnvelope(w.envelope, sampleRate) == Envelope.AdvanceEnvelope(v.envelope, sampleRate);
    assert Filter.Tuned(w.filter, params.cutoff / sampleRate, params.resonance, tan)
        == Filter.Tuned(v.filter, params.cutoff / sampleRate, params.resonance, tan);
  }

  /** An idle voice whose filter is at rest is silent, and its filter stays at rest: the
      envelope's level 0 silences whatever the oscillator produces. */
  lemma {:induction false} IdleVoiceIsSilent(v: VoiceState, params: VoiceParams, sm: Engine.Smoothed, sampleRate: real,
                                            tan: real -> real, dbToGain: real -> real)
    requires ProcessDefined(v, params, sm, sampleRate, tan)
    requires !IsActive(v) && v.filter.state1 == 0.0 && v.filter.state2 == 0.0
    ensures var r := VoiceStep(v, params, sm, sampleRate, tan, dbToGain);
      r.1 == 0.0 && !IsActive(r.0) && r.0.filter.state1 == 0.0 && r.0.filter.state2 == 0.0
  {
    var osc := Engine.EngineStep(v.engine, sm, v.frequency, sampleRate);
    var env := Envelope.AdvanceEnvelope(v.envelope, sampleRate);
    var tuned := Filter.Tuned(v.filter, params.cutoff / sampleRate, params.resonance, tan);
    assert env.1 == 0.0;
    assert Gated(osc.1, env.1) == 0.0;
    Filter.RestIsStable(tuned);
  }

  // ---------------------------------------------------------------- the object

  /** `Voice`. Its three parts are owned objects of distinct classes. */
  class Voice {
    const oscillator: Engine.OscillatorEngine
    const filter: Filter.Svf
    const envelope: Envelope.Adsr

    var midiNoteId: U8
    var midiNoteFreq: real
    var midiVelocity: real
    var triggerTime: real

    function State(): VoiceState
      reads this, oscillator, oscillator.superSquare, oscillator.variableSaw, oscillator.stringSynth
      reads filter, envelope
    {
      VoiceState(oscillator.State(), filter.State(), envelope.Snapshot(),
                 midiNoteId, midiNoteFreq, midiVelocity, triggerTime)
    }

    /** `new`: default parts, note 0 at frequency 1 and velocity 1, an idle envelope. */
    constructor New(tan: real -> real)
      ensures State().engine == Engine.DEFAULT_ENGINE && State().envelope == Envelope.DEFAULT_ENVELOPE
      ensures midiNoteId == 0 && midiNoteFreq == 1.0 && midiVelocity == 1.0 && triggerTime == 0.0
      ensures filter.mode == Filter.LowPass && filter.state1 == 0.0 && filter.state2 == 0.0
      ensures !IsActive(State())
    {
      oscillator := new Engine.OscillatorEngine.New();
      filter := new Filter.Svf(tan);
      envelope := new Envelope.Adsr();
      midiNoteId := 0;
      midiNoteFreq := 1.0;
      midiVelocity := 1.0;
      triggerTime := 0.0;
    }

    function IsVoiceActive(): (active: bool)
      reads envelope
      ensures active == Envelope.Active(envelope.Snapshot())
    {
      envelope.IsActive()
    }

    method Trigger(note: U8, velocity: real, noteToFreq: U8 -> real)
      modifies this, envelope
      ensures State() == Triggered(old(State()), note, velocity, noteToFreq)
    {
      midiNoteId := note;
      midiNoteFreq := noteToFreq(note);
      midiVelocity := velocity;
      envelope.Trigger(Envelope.EnvelopeEvent.Attack);
    }

    method Release()
      modifies envelope
      ensures State() == Released(old(State()))
    {
      envelope.Trigger(Envelope.EnvelopeEvent.Release);
    }

    method PrepareBlock(params: VoiceParams, sampleRate: real)
      requires PrepareDefined(State(), params, sampleRate)
      modifies oscillator, oscillator.superSquare, oscillator.variableSaw, oscillator.stringSynth
      ensures State() == Prepared(old(State()), params, sampleRate)
    {
      oscillator.selected := params.oscillatorType;
      oscillator.PrepareBlock(Engine.OscillatorParams(params.shape, params.morph), midiNoteFreq, sampleRate);
    }

    method Process(params: VoiceParams, sm: Engine.Smoothed, sampleRate: real, tan: real -> real,
                   dbToGain: real -> real) returns (output: real)
      requires ProcessDefined(State(), params, sm, sampleRate, tan)
      modifies oscillator.superSquare, oscillator.variableSaw, oscillator.stringSynth, filter, envelope
      ensures (State(), output) == VoiceStep(old(State()), params, sm, sampleRate, tan, dbToGain)
    {
      var gain := params.gain;
      var cutoff := params.cutoff;
      var resonance := params.resonance;

      ghost var before := State();
      filter.SetFQ(cutoff / sampleRate, resonance, tan);
      ghost var tuned := filter.State();
      assert oscillator.State() == before.engine && envelope.Snapshot() == before.envelope;

      var v := oscillator.Process(sm, midiNoteFreq, sampleRate);
      ghost var osc := Engine.EngineStep(before.engine, sm, before.frequency, sampleRate);
      assert oscillator.State() == osc.0 && v == osc.1;
      var level := envelope.Next(sampleRate);
      ghost var env := Envelope.AdvanceEnvelope(before.envelope, sampleRate);
      assert envelope.Snapshot() == env.0 && level == env.1;
      var input := Gated(v, level);
      assert input == Gated(osc.1, env.1);
      assert filter.State() == tuned;
      var filtered := filter.Process(input);
      ghost var step := Filter.SvfStep(tuned, input);
      assert filter.State() == step.0 && filtered == step.1;

      output := Gained(filtered, dbToGain(gain));
    }
  }
}
