# toby — a Dafny model of the synth voice core

toby is a small software synthesizer plugin. Its core is a single voice:
- an oscillator engine that selects one of three phase-accumulator oscillators;
- a state-variable filter;
- an ADSR envelope;
- plugin-level handling of note-on and note-off events.

The oscillators are a hard-synced "super square", a variable saw with a notch and a triangle blend, and an additive "string synth" of four octave-spaced saws. Alongside them sit:
- the BLEP correction kernels the oscillators use against aliasing;
- the saturation and table helpers;
- a set of stateless two-signal modulation algorithms;
- naive digital sine and square oscillators and a blend of two of them;
- an unused variable-shape sync oscillator;
- an older copy of the digital, blend and saw oscillators.

Every `f32` is a Dafny `real`. Each stateful component is modelled in three layers:
- a datatype holding its state;
- pure step functions on that state;
- a `class` with the source's fields, whose methods update them in place. Each method is proved to leave the state that the step function gives.

The oscillators keep the source's one-sample-late `next_sample` carry register. The loops of the source (the sync correction loops, the octave-shift loop, the event loop) are `while` loops with invariants. The properties are lemmas about the step functions. They cover:
- phase invariants;
- loop termination;
- stage and flag consistency;
- the exact integer bit-mask rules;
- the clamp preconditions;
- array bounds;
- the polynomial identities of the kernels.

The transcendental functions are parameters of the operations that use them: `sin`, `tan`, MIDI note to frequency, and dB to gain. The parameter smoothers are modelled by their targets. The smoothed value a call consumes is an input to that call.

Modules follow the source files:

| module | models |
|---|---|
| `Util` | `src/util.rs` |
| `Blep` | `src/oscillator/mod.rs` |
| `Modulator` | `src/modulator.rs` |
| `Filter` | `src/filter.rs` |
| `Envelope` | `src/envelope.rs` |
| `Digital` | `src/oscillator/digital.rs` |
| `VariableSaw` | `src/oscillator/variable_saw.rs` |
| `SuperSquare` | `src/oscillator/super_square.rs` |
| `StringSynth` | `src/oscillator/string_synth.rs` |
| `Analog` | `src/oscillator/analog.rs` |
| `LegacyOscillator` | `src/oscillator.rs` |
| `Engine` | `src/oscillator/engine.rs` |
| `Voice` | `src/voice.rs` |
| `Plugin` | `Toby::reset`, the note-event loop and the envelope advance of the rendering loop in `src/lib.rs` |

## Model

| member | source | states |
|---|---|---|
| Util.Clamp | src/oscillator/variable_saw.rs:37-41 | needs `lo <= hi`, as `f32::clamp` panics otherwise; the result lies in [lo, hi], is x inside, lo below and hi above |
| Util.Trunc | src/modulator.rs:65-66 | `as` truncation toward zero: the integer lies within one of x, on the side of zero |
| Util.CastI32 | src/oscillator/string_synth.rs:83 | a float to i32 cast: truncation, saturating at the i32 bounds |
| Util.CastUsize | src/oscillator/engine.rs:56-57 | a float to usize cast: truncation for non-negative inputs, 0 below 1 |
| Util.SoftLimit | src/util.rs:2-4 | soft_limit keeps the sign of its input |
| Util.SoftLimitOdd | src/util.rs:2-4 | soft_limit is odd and maps 0 to 0 |
| Util.SoftLimitAtThree | src/util.rs:2-4 | soft_limit(3) = 1 and soft_limit(-3) = -1 |
| Util.SoftLimitBounded | src/util.rs:2-4 | on [-3, 3] soft_limit stays within [-1, 1] |
| Util.SoftClip | src/util.rs:7-15 | the result is in [-1, 1]: -1 below -3, 1 above 3, soft_limit in between |
| Util.SoftClipContinuousAtThree | src/util.rs:7-15 | the soft_limit branch meets the saturated branches at ±3 |
| Util.CrossFade | src/util.rs:18-20 | fade 0 gives a, fade 1 gives b, a fade in [0, 1] lies between a and b |
| Util.TableIndex | src/util.rs:24-25 | the entry at or below the scaled index for a non-negative one, and 0 for any scaled index below 1, negative ones included |
| Util.InterpolateTable | src/util.rs:23-30 | needs both table entries read to exist; the result lies between the two entries when the scaled index is non-negative, is the entry itself at a whole index, and below the table extends the line through entries 0 and 1 |
| Util.Clip16 | src/util.rs:33-41 | the identity on the i16 range, saturating to -32768 below and 32767 above |
| Util.Clip16Idempotent | src/util.rs:33-41 | clipping twice is clipping once |
| Blep.ThisBlep | src/oscillator/mod.rs:14-16 | no contract of its own: Blep.StepKernelsMirror, Blep.StepKernelEndpoints and Blep.StepKernelsBounded state its shape |
| Blep.NextBlep | src/oscillator/mod.rs:19-23 | no contract of its own: the mirror of this_blep_sample, stated by Blep.StepKernelsMirror and bounded by Blep.StepKernelsBounded |
| Blep.NextIntegratedBlep | src/oscillator/mod.rs:26-32 | no contract of its own: Blep.IntegratedKernelFactors, Blep.IntegratedKernelEndpoints and Blep.NextIntegratedBlepNonIncreasing state its shape |
| Blep.IntegratedKernelFactors | src/oscillator/mod.rs:26-32 | 16 next_integrated_blep_sample(t) = (1 - t)^3 (t + 3): a triple zero at t = 1 |
| Blep.ThisIntegratedBlep | src/oscillator/mod.rs:35-37 | no contract of its own: Blep.IntegratedKernelsMirror states that it mirrors next_integrated_blep_sample and Blep.ThisIntegratedBlepBounded bounds it |
| Blep.StepKernelsMirror | src/oscillator/mod.rs:14-23 | the two step kernels mirror each other around t = 1/2, both ways |
| Blep.IntegratedKernelsMirror | src/oscillator/mod.rs:26-37 | the two integrated kernels mirror each other around t = 1/2, both ways |
| Blep.StepKernelEndpoints | src/oscillator/mod.rs:14-23 | this(0) = 0, this(1) = 1/2, next(0) = 1/2, next(1) = 0 |
| Blep.StepKernelsBounded | src/oscillator/mod.rs:14-23 | on [0, 1] both step kernels lie in [0, 1/2] |
| Blep.IntegratedKernelEndpoints | src/oscillator/mod.rs:26-37 | next_integrated(0) = 3/16 and next_integrated(1) = 0, mirrored for this_integrated |
| Blep.NextIntegratedBlepNonIncreasing | src/oscillator/mod.rs:26-32 | next_integrated never increases on [0, 1] |
| Blep.NextIntegratedBlepBounded | src/oscillator/mod.rs:26-32 | next_integrated stays in [0, 3/16] on [0, 1] |
| Blep.ThisIntegratedBlepBounded | src/oscillator/mod.rs:35-37 | this_integrated stays in [0, 3/16] on [0, 1] |
| Blep.ApplyBleps | src/oscillator/variable_saw.rs:66-70 | the four kernel updates add to this and next sample exactly the two halves of one step and slope correction |
| Modulator.ProcessXFade | src/modulator.rs:32-37 | parameter 0 gives the modulator, parameter 1 the carrier |
| Modulator.XFadeIsCrossFade | src/modulator.rs:32-37 | the two-gain form equals the linear cross-fade, so it stays between its inputs for a parameter in [0, 1] |
| Modulator.ProcessFold | src/modulator.rs:39-49 | needs both table entries to exist; entry 0 at parameter 0; for a non-negative folded sum the result lies between the two neighbouring entries at the scaled sum; for a negative one the index saturates at 0 and the line through entries 0 and 1 is extended below the table |
| Modulator.FoldBelowTable | src/modulator.rs:39-49 | a negative folded sum on a table rising from entry 0 gives a result below entry 0, outside every table entry's range near the start |
| Modulator.FoldBelowTableExample | src/modulator.rs:39-49 | inputs -1 and 0 at parameter 1 on the table [0, 1, 2] are in bounds and fold to a negative value |
| Modulator.FoldSymmetric | src/modulator.rs:39-49 | swapping the two inputs changes neither the bounds obligation nor the result |
| Modulator.FoldIndexBounded | src/modulator.rs:39-49 | for inputs in [-1, 1] and a parameter in [0, 1] the fold reads at most entry 41 |
| Modulator.Diode | src/modulator.rs:83-92 | 0 whenever abs(x) <= 0.667 |
| Modulator.DiodeOdd | src/modulator.rs:83-92 | diode is odd |
| Modulator.ProcessAnalogRingModulation | src/modulator.rs:51-57 | 0 when both diode inputs are within 0.667 |
| Modulator.AnalogRingOddInModulator | src/modulator.rs:51-57 | inverting the modulator inverts the output |
| Modulator.AnalogRingEvenInCarrier | src/modulator.rs:51-57 | inverting the carrier leaves the output unchanged |
| Modulator.ProcessDigitalRingModulation | src/modulator.rs:59-62 | strictly inside (-1, 1); 0 exactly when an input or the gain factor is 0 |
| Modulator.DigitalRingSymmetric | src/modulator.rs:59-62 | modulator and carrier play symmetric roles |
| Modulator.XorBits | src/modulator.rs:68 | the bitwise XOR of `width` bits fits in `width` bits |
| Modulator.XorBitsCommutes | src/modulator.rs:68 | XOR commutes |
| Modulator.XorBitsSelf | src/modulator.rs:68 | x XOR x = 0 |
| Modulator.XorBitsZero | src/modulator.rs:68 | x XOR 0 = x |
| Modulator.XorBitsTopBit | src/modulator.rs:68 | the top bit of the result is the XOR of the top bits |
| Modulator.Xor16 | src/modulator.rs:68 | i16 `^`: the sign is the XOR of the signs; equal inputs give 0; XOR with 0 is the identity |
| Modulator.Xor16Commutes | src/modulator.rs:68 | i16 `^` commutes |
| Modulator.Quantize | src/modulator.rs:65-66 | for a sample in [-1, 1) the 16-bit value is the truncation of x times 32768 |
| Modulator.XorSample | src/modulator.rs:65-68 | the XORed sample lies in [-1, 1) and is 0 for equal inputs |
| Modulator.XorSampleSymmetric | src/modulator.rs:65-68 | the XORed sample does not depend on the order of its inputs |
| Modulator.Mix | src/modulator.rs:72 | parameter 0 gives the scaled sum, parameter 1 the XOR sample |
| Modulator.ProcessXor | src/modulator.rs:64-73 | parameter 0 gives 0.7 (x1 + x2), parameter 1 gives the XOR of the two quantised inputs, rescaled |
| Modulator.XorSymmetric | src/modulator.rs:64-73 | the XOR algorithm treats its two inputs alike |
| Modulator.ProcessNop | src/modulator.rs:79-81 | no contract of its own: Modulator.Process and Modulator.SilentCarrier state that Nop returns the modulator unchanged |
| Modulator.Process | src/modulator.rs:15-29 | each variant is dispatched to its own algorithm; only Fold needs the table bounds; Nop returns the modulator whatever the carrier and parameter (src/modulator.rs:79-81) |
| Modulator.SilentCarrier | src/modulator.rs:15-37 | with a zero carrier, digital ring modulation is 0, the cross-fade scales the modulator and Nop passes it |
| Filter.WarpedGain | src/filter.rs:61-64 | the tan helper evaluates at min(f, 0.497) times pi |
| Filter.WarpedGainSaturates | src/filter.rs:61-64 | all frequencies at or above 0.497 give the same gain |
| Filter.NormaliserWellDefined | src/filter.rs:39-43 | with g >= 0 and r > 0 the denominator of h is at least 1 |
| Filter.UnitResonanceDefined | src/filter.rs:19-35 | resonance 1 with a non-negative warped gain makes h well defined |
| Filter.Tuned | src/filter.rs:39-43 | set_f_q stores g = tan helper of f, r = 1/resonance and h with h (1 + r g + g²) = 1, keeping mode and state |
| Filter.SvfStep | src/filter.rs:45-57 | state1 := g hp + bp and state2 := g bp + lp; g, r, h and mode unchanged; the output is lp, bp or hp by mode |
| Filter.Outputs | src/filter.rs:45-48 | no contract of its own: Filter.OutputsSolveLoop states that the three taps solve the filter's implicit loop equations |
| Filter.OutputsSolveLoop | src/filter.rs:45-51 | the hp, bp and lp taps solve the filter's implicit loop equations |
| Filter.RestIsStable | src/filter.rs:45-51 | zero state and zero input give output 0 and keep the state zero |
| Filter.Svf.constructor | src/filter.rs:19-35 | LowPass with zero state, tuned as set_f_q(22000, 1): g at the clamped argument 0.497 pi and r = 1 |
| Filter.Svf.SetFQ | src/filter.rs:39-43 | the new state is Tuned of the old |
| Filter.Svf.Process | src/filter.rs:45-57 | the new state and output are SvfStep of the old state |
| Envelope.Interpolate | src/envelope.rs:126-128 | value 0 gives `from`, value 1 gives `to`, linear in between |
| Envelope.ResetEnvelope | src/envelope.rs:32-36 | stage Idle, step_timer = release, timer 0, parameters unchanged, not active |
| Envelope.TriggerEnvelope | src/envelope.rs:38-49 | stage Attack or Release as the event says, both timers 0, parameters unchanged, active |
| Envelope.AdvanceEnvelope | src/envelope.rs:51-100 | timer grows by 1/sample_rate; a completed attack gives 1 and enters Decay; a completed decay gives sustain and enters Sustain; Sustain gives sustain; a completed release gives 0 and enters Idle; Idle gives 0; mid-ramp gives the interpolation at the advanced step timer |
| Envelope.AttackOvershootBound | src/envelope.rs:56-65 | the attack ramp's output is positive and below (attack + 1/sample_rate)/attack, not below 1 |
| Envelope.AttackOvershootExample | src/envelope.rs:56-65 | a concrete attack step that outputs 1.25 |
| Envelope.ReleaseStartsFromSustain | src/envelope.rs:86-95 | the first release step ramps from the sustain level, not from the current level |
| Envelope.Run | src/envelope.rs:51-100 | n calls give n levels and keep the parameters |
| Envelope.IdleIsSilent | src/envelope.rs:98 | an Idle envelope stays Idle and outputs 0 forever |
| Envelope.ReleaseTerminates | src/envelope.rs:86-95 | a release with a positive step reaches Idle |
| Envelope.Adsr.constructor | src/envelope.rs:16-29 | the default envelope |
| Envelope.Adsr.Reset | src/envelope.rs:32-36 | the new state is ResetEnvelope of the old |
| Envelope.Adsr.Trigger | src/envelope.rs:38-49 | the new state is TriggerEnvelope of the old |
| Envelope.Adsr.Next | src/envelope.rs:51-100 | the new state and level are AdvanceEnvelope of the old state |
| Envelope.Adsr.IsActive | src/envelope.rs:102-104 | agrees with Envelope.Active on the snapshot, the activity the reset, trigger and voice lemmas speak of |
| Digital.Advance | src/oscillator/digital.rs:41-44 | the phase advances by the delta with at most one wrap, staying in [0, 1) for a phase and delta in [0, 1) |
| Digital.SquareLevel | src/oscillator/digital.rs:52 | 1 exactly when the phase is below 1/2, else 0 |
| Digital.DigitalStep | src/oscillator/digital.rs:35-68 | Saw and Triangle reach `todo!()` (None); sine outputs sin of the old phase times 2 pi; square outputs SquareLevel of the old phase; the phase advances |
| Digital.Run | src/oscillator/digital.rs:62-68 | zero calls keep the state; any call on Saw or Triangle is None |
| Digital.PhaseStaysInRange | src/oscillator/digital.rs:41-57 | for a delta in [0, 1), any number of sine or square calls keeps the phase in [0, 1) |
| Digital.BlendLevel | src/oscillator/digital.rs:92 | shape 0 gives a, shape 1 gives b |
| Digital.BlendIsCrossFade | src/oscillator/digital.rs:92 | the blend is the cross-fade a (1 - shape) + b shape and stays between a and b |
| Digital.BlendStep | src/oscillator/digital.rs:88-93 | both children advance each call; defined exactly when both are; the output is their blend |
| Digital.DefaultBlendIsDefined | src/oscillator/digital.rs:77-93 | the default sine/square blend is always defined and gives their mean |
| Digital.DigitalOscillator.Default | src/oscillator/digital.rs:21-28 | phase 0, shape Sine |
| Digital.DigitalOscillator.New | src/oscillator/digital.rs:31-33 | phase 0 with the given shape |
| Digital.DigitalOscillator.ProcessSine | src/oscillator/digital.rs:35-47 | outputs sin of the old phase, advances the phase |
| Digital.DigitalOscillator.ProcessSquare | src/oscillator/digital.rs:49-60 | outputs the square level of the old phase, advances the phase |
| Digital.DigitalOscillator.Process | src/oscillator/digital.rs:62-68 | matches DigitalStep |
| Digital.BlendOscillator.Default | src/oscillator/digital.rs:77-85 | a sine and a square child at phase 0, shape 1/2 |
| Digital.BlendOscillator.Process | src/oscillator/digital.rs:87-94 | matches BlendStep on the two children |
| VariableSaw.PreparedPw | src/oscillator/variable_saw.rs:35-45 | 1/2 for a delta of at least 1/4; otherwise the width clamped into [2 pd, 1 - 2 pd], whose bounds are ordered |
| VariableSaw.PreparedPwInside | src/oscillator/variable_saw.rs:35-45 | a positive delta gives a width strictly inside (0, 1) |
| VariableSaw.NaiveSample | src/oscillator/variable_saw.rs:97-117 | no contract of its own: compute_naive_sample; VariableSaw.NaiveNotchSaw and VariableSaw.NaiveTriangle state it at waveshape 0 and 1 |
| VariableSaw.Naive | src/oscillator/variable_saw.rs:52-56 | needs pw outside {0, 1}, the slope divisions; no contract of its own: the amounts and slopes process passes to compute_naive_sample, stated through VariableSaw.NaiveNotchSaw and VariableSaw.NaiveTriangle |
| VariableSaw.NaiveNotchSaw | src/oscillator/variable_saw.rs:97-117 | waveshape 0 gives the notched saw: the phase below pw, 1.2 from pw |
| VariableSaw.NaiveTriangle | src/oscillator/variable_saw.rs:97-117 | waveshape 1 gives a triangle rising to 1 at pw and falling to 0 at 1, within [0, 1] |
| VariableSaw.EdgeStep | src/oscillator/variable_saw.rs:58-88 | a rising edge sets high without wrapping; otherwise phase >= 1 wraps by 1 and clears high; otherwise nothing changes |
| VariableSaw.ThisSample | src/oscillator/variable_saw.rs:58-92 | the sample emitted is the carried sample plus this sample's BLEP half |
| VariableSaw.SawStep | src/oscillator/variable_saw.rs:47-95 | next_sample is overwritten with the naive sample at the new phase; previous_pw := pw; output (2 this - 1)/1.2 |
| VariableSaw.SawStepKeepsPhase | src/oscillator/variable_saw.rs:37-41 | for a fixed delta below 1/4 and a width prepare_block allows, the phase stays in [0, 1), below pw while low |
| VariableSaw.SteadySawDefined | src/oscillator/variable_saw.rs:49-57 | once previous_pw equals pw in (0, 1), every slope division is defined |
| VariableSaw.EdgePositionInPeriod | src/oscillator/variable_saw.rs:60-88 | each edge's sub-sample position lies in [0, 1) |
| VariableSaw.VariableSawOscillator.Default | src/oscillator/variable_saw.rs:20-32 | the default state |
| VariableSaw.VariableSawOscillator.PrepareBlock | src/oscillator/variable_saw.rs:35-45 | stores PreparedPw and the waveshape, nothing else |
| VariableSaw.VariableSawOscillator.AdvancePhase | src/oscillator/variable_saw.rs:52-88 | the phase advances by the delta and at most one edge, a rise or a wrap, is corrected: the fields and both BLEP halves are those EdgeStep gives |
| VariableSaw.VariableSawOscillator.Rise | src/oscillator/variable_saw.rs:60-72 | the rising edge: high is set, the phase is not wrapped, and both halves get RiseBleps |
| VariableSaw.VariableSawOscillator.Wrap | src/oscillator/variable_saw.rs:73-88 | the wrap: the phase drops by 1, high is cleared and both halves get WrapBleps |
| VariableSaw.VariableSawOscillator.Process | src/oscillator/variable_saw.rs:47-95 | the new state and output are SawStep of the old state |
| SuperSquare.SlaveRatio | src/oscillator/super_square.rs:21-27 | in [0.51, 1) below shape 1/2 and in [1, 5] from 1/2 to 1 |
| SuperSquare.SlaveRatioContinuous | src/oscillator/super_square.rs:21-27 | the two branches meet at shape 1/2 |
| SuperSquare.SlaveRatioMonotone | src/oscillator/super_square.rs:21-27 | the ratio never decreases with the shape on [0, 1] |
| SuperSquare.PreparedTargets | src/oscillator/super_square.rs:21-37 | both targets are clamped into [1e-6, 1/4], exact when in range, nothing else changes |
| SuperSquare.Level | src/oscillator/super_square.rs:102 | 0 below phase 1/2, 1 from 1/2 |
| SuperSquare.AdvanceMaster | src/oscillator/super_square.rs:47-70 | a reset happens exactly when the master phase reaches 1; without one only the phase advances |
| SuperSquare.ResetDetails | src/oscillator/super_square.rs:50-64 | on reset: the wrapped phase, reset_time, and transition_during_reset exactly when the slave phase at reset is >= 1, or high is false and the wrapped phase is >= 1/2 |
| SuperSquare.MasterStaysInRange | src/oscillator/super_square.rs:50-53 | the master wraps at most once and reset_time lies in [0, 1) |
| SuperSquare.SyncLoop | src/oscillator/super_square.rs:73-95 | needs a positive slave frequency, which bounds the loop; no contract of its own: SuperSquare.SyncLoopSettles and SuperSquare.SyncLoopIdle state where it ends and when it does nothing |
| SuperSquare.SyncLoopSettles | src/oscillator/super_square.rs:73-95 | the correction loop terminates with the slave phase below 1 and high consistent with phase >= 1/2 |
| SuperSquare.SyncLoopIdle | src/oscillator/super_square.rs:73-95 | a slave already consistent is left unchanged |
| SuperSquare.LoopStart | src/oscillator/super_square.rs:44-72 | the loop starts at the advanced slave phase, with the carried sample as this sample when there is no reset |
| SuperSquare.SquareStep | src/oscillator/super_square.rs:39-105 | needs positive frequencies; no contract of its own: SuperSquare.SquareStepKeepsValid states the phase invariant it keeps and SuperSquare.SuperSquareOscillator.Process ties the method to it |
| SuperSquare.SquareStepKeepsValid | src/oscillator/super_square.rs:39-105 | with both frequencies in (0, 1/4], each call keeps the master in [0, 1) and the slave consistent |
| SuperSquare.SuperSquareOscillator.Default | src/oscillator/super_square.rs:108-120 | the default state |
| SuperSquare.SuperSquareOscillator.Prepare | src/oscillator/super_square.rs:21-37 | the new state is PreparedTargets of the old |
| SuperSquare.SuperSquareOscillator.Sync | src/oscillator/super_square.rs:73-95 | the loop leaves the slave as the functional sync loop does; master and targets unchanged |
| SuperSquare.SuperSquareOscillator.AdvanceMasterPhase | src/oscillator/super_square.rs:47-70 | matches AdvanceMaster; slave and targets unchanged |
| SuperSquare.SuperSquareOscillator.Restart | src/oscillator/super_square.rs:97-104 | after a reset the slave restarts at reset_time times its frequency with high false; the new level goes into next_sample; the output is 2 this - 1 |
| SuperSquare.SuperSquareOscillator.Process | src/oscillator/super_square.rs:39-105 | the new state and output are SquareStep of the old state |
| StringSynth.AndBits | src/oscillator/string_synth.rs:92-98 | no contract of its own: bitwise `&` of the low bits, least significant first; StringSynth.MaskIsBitAnd ties it to the segment masks |
| StringSynth.BitAnd | src/oscillator/string_synth.rs:92-98 | no contract of its own: `&` on an i32 through its 32 two's-complement bits; StringSynth.MaskIsBitAnd states its value for the masks used |
| StringSynth.Mask | src/oscillator/string_synth.rs:92-114 | needs one of the masks 1, 3, 4, 6, 7; no contract of its own: the residues that StringSynth.MaskIsBitAnd proves equal to the bitwise AND |
| StringSynth.MaskIsBitAnd | src/oscillator/string_synth.rs:92-114 | the segment masks 1, 3, 4, 6 and 7 on an i32 are the bitwise AND |
| StringSynth.WrapKeepsLowResidues | src/oscillator/string_synth.rs:84-100 | 32-bit wrap-around keeps the low three bits |
| StringSynth.OctaveShift | src/oscillator/string_synth.rs:33-39 | shift is even, the shifted delta is at most 1/2 and above 1/4 when shifted, and doubling it shift/2 times gives the delta back |
| StringSynth.ShiftStep | src/oscillator/string_synth.rs:33-39 | above 1/2, halving the delta takes off exactly one octave (2) |
| StringSynth.TooHighAboveFour | src/oscillator/string_synth.rs:41-43 | shift reaches 8 exactly when the delta is above 4 |
| StringSynth.ShiftedRegistration | src/oscillator/string_synth.rs:45-46 | seven entries: zeros before shift, the unshifted row after |
| StringSynth.GainTargets | src/oscillator/string_synth.rs:48-68 | no contract of its own: StringSynth.GainTargetsTotal states that the four targets sum to gain times the registration sum |
| StringSynth.GainTargetsTotal | src/oscillator/string_synth.rs:48-68 | the four gain targets sum to gain times the registration's sum |
| StringSynth.PreparedString | src/oscillator/string_synth.rs:23-69 | shift >= 8 changes nothing; otherwise the frequency target is the shifted increment clamped into [1e-6, 1/4] and the gain targets are GainTargets of the registration shifted by the octave count; phase, segment and carry are kept |
| StringSynth.PreparedGainsTotal | src/oscillator/string_synth.rs:45-68 | when prepare_block does not refuse, the four gain targets sum to gain times the first 7 - shift weights of the unshifted registration |
| StringSynth.Discontinuity | src/oscillator/string_synth.rs:85-100 | no contract of its own: StringSynth.DiscontinuityRule states which saws drop and StringSynth.DiscontinuityIsNaiveStep that the sum is the naive jump |
| StringSynth.SegmentStep | src/oscillator/string_synth.rs:81-109 | no contract of its own: StringSynth.DiscontinuityRule states its jump (none without a segment change) and StringSynth.StringStepKeepsValid the phase and segment it leaves |
| StringSynth.Crossing | src/oscillator/string_synth.rs:86-100 | no contract of its own: segment 8 wraps to 0 with the saw_8 drop, as StringSynth.DiscontinuityRule and StringSynth.DiscontinuityIsNaiveStepAtWrap state |
| StringSynth.DiscontinuityRule | src/oscillator/string_synth.rs:84-100 | on a segment change saw_1 always drops, saw_2 iff the new segment is even, saw_4 iff it is 0 mod 4, saw_8 iff the phase wrapped; no change, no jump |
| StringSynth.NaiveString | src/oscillator/string_synth.rs:111-114 | no contract of its own: StringSynth.NaiveByCoefficients writes it as gain-weighted saw offsets and StringSynth.DiscontinuityIsNaiveStep relates its jumps to the BLEP amplitude |
| StringSynth.NaiveByCoefficients | src/oscillator/string_synth.rs:111-114 | the naive sample as a sum of each saw's offset times its gain |
| StringSynth.DiscontinuityIsNaiveStep | src/oscillator/string_synth.rs:84-115 | at each segment boundary 1 to 7 the discontinuity is the jump of the naive sample |
| StringSynth.DiscontinuityIsNaiveStepAtWrap | src/oscillator/string_synth.rs:84-115 | at the wrap from 8 to 0 the discontinuity is the jump of the naive sample |
| StringSynth.StringStep | src/oscillator/string_synth.rs:71-117 | needs StringSynth.StringDefined; no contract of its own: StringSynth.StringStepKeepsValid states the phase invariant it keeps and StringSynth.StringSynthOscillator.Process ties the method to it |
| StringSynth.StringStepKeepsValid | src/oscillator/string_synth.rs:81-109 | with a frequency in (0, 1/4], the phase stays in [0, 8) and the segment is its floor |
| StringSynth.StringBlepInPeriod | src/oscillator/string_synth.rs:102-107 | the BLEP position of a jump lies in [0, 1) |
| StringSynth.RegistrationTableWellFormed | src/oscillator/string_synth.rs:136-148 | 11 rows of 7 entries in [0, 1] that each sum to 1 |
| StringSynth.TableGainsTotal | src/oscillator/string_synth.rs:48-68 | a table row's gain targets sum to the gain |
| StringSynth.StringSynthOscillator.Default | src/oscillator/string_synth.rs:120-134 | the default state |
| StringSynth.StringSynthOscillator.ShiftOctaves | src/oscillator/string_synth.rs:33-39 | the loop computes OctaveShift |
| StringSynth.StringSynthOscillator.ShiftRegistration | src/oscillator/string_synth.rs:45-46 | a fresh array holding ShiftedRegistration |
| StringSynth.StringSynthOscillator.PrepareBlock | src/oscillator/string_synth.rs:23-69 | the new state is PreparedString of the old |
| StringSynth.StringSynthOscillator.GainsOf | src/oscillator/string_synth.rs:48-68 | the gain targets of the array |
| StringSynth.StringSynthOscillator.SumDrops | src/oscillator/string_synth.rs:84-100 | the discontinuity the masks select |
| StringSynth.StringSynthOscillator.Discontinue | src/oscillator/string_synth.rs:84-107 | wraps at segment 8, leaves phase and segment as the crossing gives them, adds the first BLEP half to this sample and stores the second as the carry; nothing else changes |
| StringSynth.StringSynthOscillator.AddBlep | src/oscillator/string_synth.rs:102-107 | for a non-zero jump, this sample gains the first BLEP half and the carry is the second; zero jumps change nothing |
| StringSynth.StringSynthOscillator.AddNaive | src/oscillator/string_synth.rs:111-114 | the carry gains the four saws at the new phase and segment; nothing else changes |
| StringSynth.StringSynthOscillator.Finish | src/oscillator/string_synth.rs:109-116 | the new state and the output twice this sample are StepFrom of the state at the crossing |
| StringSynth.StringSynthOscillator.Process | src/oscillator/string_synth.rs:71-117 | the new state and output are StringStep of the old state |
| Analog.SquareAmount | src/oscillator/analog.rs:72 | 0 up to waveshape 1/2, then 2 (waveshape - 1/2) |
| Analog.TriangleAmount | src/oscillator/analog.rs:73 | 0 for every waveshape >= -1, positive only below |
| Analog.ControlRangeAmounts | src/oscillator/analog.rs:72-73 | on [0, 1] the triangle amount is 0 and the square amount is in [0, 1], 1 exactly at 1 |
| Analog.NaiveShape | src/oscillator/analog.rs:187-207 | no contract of its own: compute_naive_sample; Analog.NaiveShapeIsSaw, Analog.NaiveShapeIsSquare and Analog.TriangleIsContinuous state what it gives at the ends of the two amounts |
| Analog.NaiveShapeIsSaw | src/oscillator/analog.rs:187-207 | zero square and triangle amounts give the phase |
| Analog.NaiveShapeIsSquare | src/oscillator/analog.rs:187-207 | square amount 1 gives 0 below pw and 1 from pw |
| Analog.TriangleIsContinuous | src/oscillator/analog.rs:187-207 | the triangle is 0 at 0, 1 at pw and 0 at 1 |
| Analog.ShapeOf | src/oscillator/analog.rs:72-76 | the per-call amounts and slopes keep pw, previous_pw and the slave delta |
| Analog.AdvanceMaster | src/oscillator/analog.rs:78-108 | a reset happens exactly when the master reaches 1, with the wrapped phase and reset_time = phase / delta |
| Analog.MasterWrapsOnce | src/oscillator/analog.rs:79-82 | the master stays in [0, 1) and reset_time lies in [0, 1) |
| Analog.Corrections | src/oscillator/analog.rs:116-153 | the edge loop ends with the slave below 1 when high and below pw when low, never raises the phase, and leaves a settled slave alone |
| Analog.CorrectionsEndInPeriod | src/oscillator/analog.rs:116-153 | the loop leaves the slave phase in [0, 1) |
| Analog.WindowInUnitRange | src/oscillator/analog.rs:174-175 | the output window lies in [0, 1] |
| Analog.WindowClosesAtWrap | src/oscillator/analog.rs:174-175 | the window is 0 at both ends of the period |
| Analog.ShapedPhasorInUnitRange | src/oscillator/analog.rs:178-179 | the shaped phasor lies in [0, 1] and is the phase itself at pw = 1/2 |
| Analog.FinishSyncs | src/oscillator/analog.rs:155-168 | after a reset the slave restarts at reset_time times its delta with high false; previous_pw := pw |
| Analog.FinishOutput | src/oscillator/analog.rs:170-181 | the output is the shaped phasor of the new master phase |
| Analog.LoopedInPeriod | src/oscillator/analog.rs:116-153 | the loop's result is in [0, 1) |
| Analog.SyncResetsSlave | src/oscillator/analog.rs:57-185 | a reset syncs the slave; the master advances; the widths, waveshape and phase modulation are kept |
| Analog.ResetPhaseInPeriod | src/oscillator/analog.rs:155-158 | the restarted slave phase lies in [0, 1) |
| Analog.ShapeStep | src/oscillator/analog.rs:57-185 | needs Analog.ShapeDefined; no contract of its own: Analog.ShapeStepKeepsValid states the phase invariant it keeps and Analog.VariableShapeOscillator.Process ties the method to it |
| Analog.ShapeStepKeepsValid | src/oscillator/analog.rs:57-185 | with deltas in (0, 1], both phases stay in [0, 1) |
| Analog.OutputIsShapedPhasor | src/oscillator/analog.rs:36 | with OUTPUT_PHASE set and no phase modulation, each output is the shaped phasor |
| Analog.VariableShapeOscillator.Default | src/oscillator/analog.rs:23-39 | the default state |
| Analog.VariableShapeOscillator.Prepare | src/oscillator/analog.rs:45-55 | stores the saw's pw clamp and the waveshape unchanged |
| Analog.VariableShapeOscillator.Sync | src/oscillator/analog.rs:78-108 | matches AdvanceMaster |
| Analog.VariableShapeOscillator.Reset | src/oscillator/analog.rs:82-107 | the reset corrections and the transition flag |
| Analog.VariableShapeOscillator.RiseEdge | src/oscillator/analog.rs:118-134 | one rising-edge correction |
| Analog.VariableShapeOscillator.FallEdge | src/oscillator/analog.rs:136-152 | one falling-edge correction |
| Analog.VariableShapeOscillator.CorrectEdges | src/oscillator/analog.rs:116-153 | the loop computes Corrections |
| Analog.VariableShapeOscillator.Finish | src/oscillator/analog.rs:155-181 | the reset, carry and output match ShapeFinish |
| Analog.VariableShapeOscillator.Process | src/oscillator/analog.rs:57-185 | the new state and output are ShapeStep of the old state |
| LegacyOscillator.ThisBlepSample | src/oscillator.rs:204-206 | no contract of its own: LegacyOscillator.KernelsMirror and LegacyOscillator.KernelsAgree state it mirrors its partner and equals the shared kernel |
| LegacyOscillator.NextBlepSample | src/oscillator.rs:207-211 | no contract of its own: LegacyOscillator.KernelsMirror and LegacyOscillator.KernelsAgree state it mirrors its partner and equals the shared kernel |
| LegacyOscillator.NextIntegratedBlepSample | src/oscillator.rs:213-219 | no contract of its own: LegacyOscillator.KernelsMirror and LegacyOscillator.KernelsAgree state it mirrors its partner and equals the shared kernel |
| LegacyOscillator.ThisIntegratedBlepSample | src/oscillator.rs:221-223 | no contract of its own: LegacyOscillator.KernelsMirror and LegacyOscillator.KernelsAgree state it mirrors its partner and equals the shared kernel |
| LegacyOscillator.KernelsMirror | src/oscillator.rs:204-223 | this(t) = next(1 - t) for the step and the integrated kernels |
| LegacyOscillator.KernelsAgree | src/oscillator.rs:204-223 | the private kernels equal the shared ones |
| LegacyOscillator.DigitalOscillator.Default | src/oscillator.rs:15-22 | phase 0, shape Sine |
| LegacyOscillator.DigitalOscillator.New | src/oscillator.rs:25-27 | phase 0 with the given shape |
| LegacyOscillator.DigitalOscillator.ProcessSine | src/oscillator.rs:29-41 | sin of the old phase, phase advanced |
| LegacyOscillator.DigitalOscillator.ProcessSquare | src/oscillator.rs:43-54 | the square level of the old phase, phase advanced |
| LegacyOscillator.DigitalOscillator.Process | src/oscillator.rs:56-62 | matches DigitalStep, with `todo!()` as None |
| LegacyOscillator.BlendOscillator.Default | src/oscillator.rs:71-79 | a sine and a square child, shape 1/2 |
| LegacyOscillator.BlendOscillator.Process | src/oscillator.rs:82-87 | matches BlendStep: a (1 - shape) + b shape |
| LegacyOscillator.VariableSawOscillator.Default | src/oscillator.rs:102-114 | the default saw state |
| LegacyOscillator.VariableSawOscillator.Prepare | src/oscillator.rs:117-127 | the same pw clamp with the >= 1/4 branch |
| LegacyOscillator.VariableSawOscillator.ApplyBleps | src/oscillator.rs:148-152 | the four kernel updates at an edge add the two halves of the notch step and the triangle's slope correction |
| LegacyOscillator.VariableSawOscillator.AdvancePhase | src/oscillator.rs:130-140 | the phase advance step |
| LegacyOscillator.VariableSawOscillator.Rise | src/oscillator.rs:142-154 | the rising-edge corrections |
| LegacyOscillator.VariableSawOscillator.Wrap | src/oscillator.rs:155-170 | the wrap corrections |
| LegacyOscillator.VariableSawOscillator.Process | src/oscillator.rs:129-177 | matches SawStep: next_sample overwritten, output (2 this - 1)/1.2 |
| Engine.SawPw | src/oscillator/engine.rs:44-50 | the saw width always lies in [0.005, 1] |
| Engine.SawPwEnds | src/oscillator/engine.rs:44-50 | morph 0 gives 0.55, morph 1 gives 0.005 |
| Engine.SawPwFullAroundMiddle | src/oscillator/engine.rs:44-50 | the width saturates at 1 around morph 1/2 |
| Engine.SawPwTent | src/oscillator/engine.rs:44-50 | the width rises up to morph 1/2 and falls after |
| Engine.SawShape | src/oscillator/engine.rs:51 | in [0, 1]: 1 for shape <= 9/21, 0 for shape >= 10/21, linear between |
| Engine.RegistrationIndex | src/oscillator/engine.rs:56-57 | in [0, 10] for morph in [0, 1]; in bounds exactly when morph < 1.1 |
| Engine.RegistrationRow | src/oscillator/engine.rs:56-59 | the row read is a well-formed registration |
| Engine.PreparedEngine | src/oscillator/engine.rs:37-66 | only the selected oscillator is prepared; the others and the selection are unchanged |
| Engine.PreparedSawPw | src/oscillator/engine.rs:44-53 | the saw gets the clamped engine width |
| Engine.StringGainIsShape | src/oscillator/engine.rs:58-63 | the string gain targets sum to params.shape |
| Engine.SquareFrequencySaturates | src/oscillator/engine.rs:39-42 | a frequency in Hz handed to the square's prepare saturates the master target at 1/4 |
| Engine.EngineStep | src/oscillator/engine.rs:68-74 | only the selected oscillator advances |
| Engine.StepIsSelectedStep | src/oscillator/engine.rs:68-74 | the output is the selected oscillator's step output |
| Engine.OscillatorEngine.New | src/oscillator/engine.rs:28-35 | three default oscillators, SuperSquare selected |
| Engine.OscillatorEngine.PrepareBlock | src/oscillator/engine.rs:37-66 | the new state is PreparedEngine of the old |
| Engine.OscillatorEngine.Process | src/oscillator/engine.rs:68-74 | the new state and output are EngineStep of the old state |
| Voice.Triggered | src/voice.rs:40-46 | stores note, frequency and velocity; the envelope restarts in Attack with zero timers; nothing else changes |
| Voice.Released | src/voice.rs:48-50 | the envelope enters Release with zero timers; the note is kept |
| Voice.ReleaseKeepsTriggeredNote | src/voice.rs:40-50 | releasing after a trigger keeps the triggered note and frequency |
| Voice.Prepared | src/voice.rs:52-62 | selects params.oscillator_type, then prepares the engine; nothing else changes |
| Voice.VoiceStep | src/voice.rs:64-76 | note, velocity and trigger time are unchanged |
| Voice.VelocityIsNotRead | src/voice.rs:64-76 | the output and new state do not depend on the velocity |
| Voice.IdleVoiceIsSilent | src/voice.rs:64-76 | an idle voice with a rested filter outputs 0 and stays idle and rested |
| Voice.Voice.New | src/voice.rs:22-34 | note 0, frequency 1, velocity 1, trigger time 0, a default engine, an Idle envelope and a rested low-pass filter |
| Voice.Voice.IsVoiceActive | src/voice.rs:36-38 | agrees with Envelope.Active on its envelope's snapshot |
| Voice.Voice.Trigger | src/voice.rs:40-46 | the new state is Triggered of the old |
| Voice.Voice.Release | src/voice.rs:48-50 | the new state is Released of the old |
| Voice.Voice.PrepareBlock | src/voice.rs:52-62 | the new state is Prepared of the old |
| Voice.Voice.Process | src/voice.rs:64-76 | the new state and output are VoiceStep of the old state: the oscillator gated by the envelope, filtered, times the gain |
| Plugin.ResetPlugin | src/lib.rs:156-161 | phase 0, note 0, frequency 1, envelope reset, sample rate kept |
| Plugin.ResetIdempotent | src/lib.rs:156-161 | resetting twice is resetting once |
| Plugin.NoteOnEnvelopeAsWritten | src/lib.rs:185-192 | the stage match as written: None for Idle, standing for the missing arm that rustc rejects as non-exhaustive; Attack or Release fully retrigger; Decay or Sustain zero only the timer |
| Plugin.FirstNoteIsUnhandled | src/lib.rs:185-192 | a note-on after Default or reset falls into the missing Idle arm |
| Plugin.NoteOnEnvelope | src/lib.rs:185-192 | always active with timer 0; outside Decay and Sustain a full trigger to Attack; in Decay or Sustain stage and step timer kept |
| Plugin.NoteOnCorrectionAgrees | src/lib.rs:185-192 | the corrected rule agrees with the code wherever the code has an arm |
| Plugin.HandledEffects | src/lib.rs:180-197 | a NoteOn stores note and frequency and applies the retrigger rule; a NoteOff for the current note releases; any other event changes nothing |
| Plugin.NoteOnThenOffReleases | src/lib.rs:181-197 | a note-on followed by its own note-off leaves the envelope releasing |
| Plugin.StaleNoteOffIgnored | src/lib.rs:194-198 | a note-off for another note changes nothing |
| Plugin.HandledAllAppend | src/lib.rs:174-201 | handling two runs of events in turn is handling them joined |
| Plugin.DueFrom | src/lib.rs:177-179 | the count of due events stays within the sequence |
| Plugin.DueStopsAtFirstLate | src/lib.rs:177-179 | every event before the cut is due by the sample, and the one at the cut is not |
| Plugin.DueIsFirstLate | src/lib.rs:177-179 | the cut is the first event later than the sample |
| Plugin.DueSplits | src/lib.rs:174-201 | the later sample's cut lies after the earlier one's and continues from it |
| Plugin.DispatchContinues | src/lib.rs:174-201 | the loop of one sample continues the loops before it |
| Plugin.PendingAreLate | src/lib.rs:177-179 | for time-sorted events every pending event is later than the sample |
| Plugin.HandledAllKeepsRendering | src/lib.rs:174-201 | the events keep the sample rate and the envelope parameters |
| Plugin.Rendered | src/lib.rs:226-242 | one sample's rendering loop advances the envelope by Envelope.Run over the channel samples and changes nothing else in the note state |
| Plugin.BlockFrom | src/lib.rs:170-243 | no contract of its own: the interleaving of event loops and rendering loops; Plugin.BlockPending, Plugin.SilentBlock and Plugin.NoteOnMeetsAdvancedEnvelope state it |
| Plugin.BlockFromPending | src/lib.rs:170-243 | from any sample on, the pending events at the end are those due after the last sample |
| Plugin.BlockPending | src/lib.rs:170-243 | after a block the pending events are exactly those due after its last sample, whatever the rendering does |
| Plugin.SilentBlockFrom | src/lib.rs:170-243 | with no channel samples, continuing a block keeps the back-to-back event-loop outcome |
| Plugin.SilentBlock | src/lib.rs:170-243 | with no channel samples a block is its event loops run back to back: every event due by its last sample handled in order, the rest pending |
| Plugin.NoteOnMeetsAdvancedEnvelope | src/lib.rs:170-243 | an attack finished during sample 0 has become a decay when a note-on arrives at sample 1, which then only restarts the trigger timer; applied to the envelope before the block the note-on restarts the attack |
| Plugin.Toby.Default | src/lib.rs:47-63 | the default plugin state |
| Plugin.Toby.Reset | src/lib.rs:156-161 | the new state is ResetPlugin of the old |
| Plugin.Toby.HandleEvent | src/lib.rs:180-197 | one event handled with the corrected note-on rule |
| Plugin.Toby.DispatchEvents | src/lib.rs:174-201 | the due events are handled in order and the rest returned pending |
| Plugin.Toby.RenderSample | src/lib.rs:226-242 | one `next` per channel sample: the new state is Rendered of the old |
| Plugin.Toby.DispatchBlock | src/lib.rs:170-243 | a block of samples, each running its event loop and then one envelope `next` per channel sample: the new state and pending events are BlockFrom of the old state |

## Left out

- Smoother internals (nih_plug `Smoother`): only the targets are state. The value a call consumes is a parameter (`Engine.Smoothed`, `StringSynth.StringSmoothed`).
- `sin`, `f32::tan`, `midi_note_to_freq` and `db_to_gain_fast` are foreign functions. They are function parameters and nothing is assumed about them.
- Floating-point rounding, NaN and infinities. Arithmetic is exact over the reals.
- Divisions by zero that IEEE arithmetic would turn into an infinity or a NaN (`1/(1-pw)` at pw = 1, a zero sample rate) are preconditions. These are `StringSynth.StringDefined`, `VariableSaw.SawDefined`, `Analog.ShapeDefined`, `Voice.ProcessDefined`, `Engine.ProcessDefined`, `Filter.CoefficientsDefined`, `Envelope.NextDefined` and `Plugin.CanRender`. They are stronger than the code demands.
- The fold table `LUT_BIPOLAR_FOLD` is not part of this model. `Modulator.ProcessFold` takes the table as a parameter.
- `todo!()` for the Saw and Triangle digital shapes is the `None` outcome.
- `REGISTRATION_TABLE` is indexed out of bounds for a morph of 1.1 or more. `Engine.PrepareDefined` excludes that as a precondition, because the code would panic.
- The branches of `analog.rs` that `ENABLE_SYNC` and `OUTPUT_PHASE` switch off (analog.rs:109-114, :183), and the unused `NOTCH_DEPTH` of analog.rs. `Analog.OutputIsShapedPhasor` states the consequence.
- engine.rs calls `prepare_block(shape, frequency, sample_rate)` and `process()` on the super square, which defines `prepare(shape, frequency, sample_rate)` and `process(frequency, sample_rate)`. The model calls `prepare` with the frequency as passed, in Hz, and `Engine.SquareFrequencySaturates` shows that its 1/4 clamp then saturates. The smoothed frequencies are parameters of the step.
- Plugin host plumbing in lib.rs is outside this model: parameters, the plugin trait implementations, the export macros and the logging write.
- So is the audio of the rendering loop: the oscillator's and filter's samples and the output buffer. `Plugin.Toby` keeps the sample rate, phase, note fields and envelope, and its rendering loop only advances the envelope once per channel sample (`Plugin.Toby.RenderSample`).
- The whole event queue is a sequence given up front, not the host's `next_event` iterator.
- Voice.VoiceStep: its own ensures states only what stays unchanged. The meaning of `process` is stated by `Voice.Voice.Process` against the stage-by-stage body, and by `Voice.VelocityIsNotRead` and `Voice.IdleVoiceIsSilent`.
- Plugin.Handled: the one-event rule has no ensures of its own. `Plugin.HandledEffects` states it.
- The filter's long-run stability and the oscillators' anti-aliasing quality are numerical claims the code does not establish.
- There is no polyphonic voice pool or voice stealing in the code, so none is modelled.

## Findings

| source | as written | input that shows it | evidently intended | confidence | as-written member | corrected member |
|---|---|---|---|---|---|---|
| src/lib.rs:185-192 | the note-on stage match has arms for Attack, Release, Decay and Sustain only, with no arm for `EnvelopeStage::Idle` (src/envelope.rs:120) and no wildcard; rustc rejects such a non-exhaustive match (E0004), so the code as given does not build, and the None of Plugin.NoteOnEnvelopeAsWritten stands for that missing arm | the first NoteOn after construction or `reset`, when the envelope is Idle | a note-on in Idle fully triggers the envelope into Attack, like a note-on in Release | not executed | Plugin.NoteOnEnvelopeAsWritten | Plugin.NoteOnEnvelope |
