/** The additive "string synth" of `src/oscillator/string_synth.rs`: four saws an
    octave apart (periods of 8, 4, 2 and 1 segments of a phase in [0, 8)), mixed by a
    registration of seven harmonic weights, with a BLEP at every segment boundary where
    one of the saws drops. The smoothed values of `process` are its inputs; `prepare_block`
    only sets the smoothers' targets. */
module StringSynth {

  import opened Util
  import opened Blep

  const MAX_FREQUENCY: real := 0.25
  const MIN_FREQUENCY: real := 0.000001

  /** Bitwise and of the low `width` bits of two naturals, least significant first;
      the bits above the highest bit of `b` are all zero. */
  function AndBits(a: nat, b: nat, width: nat): nat
  {
    if width == 0 || b == 0 then 0
    else (if a % 2 == 1 && b % 2 == 1 then 1 else 0) + 2 * AndBits(a / 2, b / 2, width - 1)
  }

  /** `x & mask` on an `i32` and a non-negative mask, on the two's-complement bits. */
  function BitAnd(x: I32, mask: nat): nat
  {
    AndBits(x % 0x1_0000_0000, mask, 32)
  }

  lemma {:induction false} AndBitsZero(a: nat, width: nat)
    ensures AndBits(a, 0, width) == 0
    decreases width
  {
    if width > 0 {
      AndBitsZero(a / 2, width - 1);
    }
  }

  lemma AndOne(u: nat, width: nat)
    requires width >= 1
    ensures AndBits(u, 1, width) == u % 2
  {
    AndBitsZero(u / 2, width - 1);
  }

  lemma AndTwo(u: nat, width: nat)
    requires width >= 2
    ensures AndBits(u, 2, width) == 2 * ((u / 2) % 2)
  {
    assert AndBits(u, 2, width) == 2 * AndBits(u / 2, 1, width - 1);
    AndOne(u / 2, width - 1);
  }

  lemma AndThree(u: nat, width: nat)
    requires width >= 2
    ensures AndBits(u, 3, width) == u % 4
  {
    assert AndBits(u, 3, width) == u % 2 + 2 * AndBits(u / 2, 1, width - 1);
    AndOne(u / 2, width - 1);
    LowBitThenRestOfFour(u);
  }

  lemma AndFour(u: nat, width: nat)
    requires width >= 3
    ensures AndBits(u, 4, width) == u % 8 - u % 4
  {
    assert AndBits(u, 4, width) == 2 * AndBits(u / 2, 2, width - 1);
    AndTwo(u / 2, width - 1);
    ThirdBit(u);
  }

  lemma AndSix(u: nat, width: nat)
    requires width >= 3
    ensures AndBits(u, 6, width) == u % 8 - u % 2
  {
    assert AndBits(u, 6, width) == 2 * AndBits(u / 2, 3, width - 1);
    AndThree(u / 2, width - 1);
    LowBitThenRest(u);
  }

  lemma AndSeven(u: nat, width: nat)
    requires width >= 3
    ensures AndBits(u, 7, width) == u % 8
  {
    assert AndBits(u, 7, width) == u % 2 + 2 * AndBits(u / 2, 3, width - 1);
    AndThree(u / 2, width - 1);
    LowBitThenRest(u);
  }

  /** The residue modulo 4 is the low bit and twice the next one. */
  lemma LowBitThenRestOfFour(u: nat)
    ensures u % 4 == u % 2 + 2 * ((u / 2) % 2)
  {
    var q, r := u / 4, u % 4;
    assert u == 4 * q + r;
    assert u / 2 == 2 * q + r / 2;
    assert (u / 2) % 2 == r / 2;
    assert u % 2 == r % 2;
  }

  /** The residue modulo 8 is the low bit and twice the residue modulo 4 of the rest. */
  lemma LowBitThenRest(u: nat)
    ensures u % 8 == u % 2 + 2 * ((u / 2) % 4)
  {
    var q, r := u / 8, u % 8;
    assert u == 8 * q + r;
    assert u / 2 == 4 * q + r / 2;
    assert (u / 2) % 4 == r / 2;
    assert u % 2 == r % 2;
  }

  /** The residue modulo 8 less the residue modulo 4 is four times the third bit. */
  lemma ThirdBit(u: nat)
    ensures u % 8 - u % 4 == 4 * ((u / 2 / 2) % 2)
  {
    LowBitThenRest(u);
    LowBitThenRestOfFour(u);
    LowBitThenRestOfFour(u / 2);
  }

  /** Reducing modulo 2^32 keeps the residues modulo 8. */
  lemma WrapKeepsLowResidues(x: int)
    ensures (x % 0x1_0000_0000) % 8 == x % 8 && (x % 0x1_0000_0000) % 4 == x % 4
    ensures (x % 0x1_0000_0000) % 2 == x % 2
  {
    var q := x / 0x1_0000_0000;
    assert x % 0x1_0000_0000 == x - 0x1_0000_0000 * q;
    DropEights(x, 0x2000_0000 * q);
    DropFours(x, 0x4000_0000 * q);
    DropTwos(x, 0x8000_0000 * q);
  }

  /** Taking off a multiple of the modulus keeps the residue. */
  lemma DropEights(x: int, k: int)
    ensures (x - 8 * k) % 8 == x % 8
  {
    assert x == 8 * (x / 8) + x % 8;
    assert x - 8 * k == 8 * (x / 8 - k) + x % 8;
  }

  lemma DropFours(x: int, k: int)
    ensures (x - 4 * k) % 4 == x % 4
  {
    assert x == 4 * (x / 4) + x % 4;
    assert x - 4 * k == 4 * (x / 4 - k) + x % 4;
  }

  lemma DropTwos(x: int, k: int)
    ensures (x - 2 * k) % 2 == x % 2
  {
    assert x == 2 * (x / 2) + x % 2;
    assert x - 2 * k == 2 * (x / 2 - k) + x % 2;
  }

  /** The masks `process` applies to a segment. */
  predicate IsSegmentMask(mask: nat)
  {
    mask == 1 || mask == 3 || mask == 4 || mask == 6 || mask == 7
  }

  /** `x & mask` for those masks, as residues: `& 1`, `& 3` and `& 7` keep the residue
      modulo 2, 4 and 8, and `& 4`, `& 6` the residue modulo 8 less the residue modulo 4
      and 2. */
  function Mask(x: I32, mask: nat): int
    requires IsSegmentMask(mask)
  {
    if mask == 1 then x % 2
    else if mask == 3 then x % 4
    else if mask == 4 then x % 8 - x % 4
    else if mask == 6 then x % 8 - x % 2
    else x % 8
  }

  /** The residues are the bitwise and, on the two's-complement bits, negative values
      included. */
  lemma MaskIsBitAnd(x: I32, mask: nat)
    requires IsSegmentMask(mask)
    ensures Mask(x, mask) == BitAnd(x, mask)
  {
    var u: nat := x % 0x1_0000_0000;
    WrapKeepsLowResidues(x);
    if mask == 1 {
      AndOne(u, 32);
    } else if mask == 3 {
      AndThree(u, 32);
    } else if mask == 4 {
      AndFour(u, 32);
    } else if mask == 6 {
      AndSix(u, 32);
    } else {
      AndSeven(u, 32);
    }
  }

  // ---------------------------------------------------------------- prepare_block

  /** `x` doubled `n` times. */
  function Doubled(x: real, n: nat): real
  {
    if n == 0 then x else 2.0 * Doubled(x, n - 1)
  }

  /** The octave-shift loop: halve the increment until it is at most 1/2, counting two
      registration steps per halving. The result is the shift and the halved increment. */
  function OctaveShift(phaseDelta: real): (r: (nat, real))
    ensures r.1 <= 0.5 && r.0 % 2 == 0
    ensures phaseDelta <= 0.5 ==> r == (0, phaseDelta)
    ensures r.0 > 0 ==> 0.25 < r.1
    ensures Doubled(r.1, r.0 / 2) == phaseDelta
    decreases if phaseDelta > 0.5 then (2.0 * phaseDelta).Floor else 0
  {
    if phaseDelta > 0.5 then
      var r := OctaveShift(phaseDelta * 0.5);
      (r.0 + 2, r.1)
    else (0, phaseDelta)
  }

  /** One pass of the loop adds 2 to the shift. */
  lemma ShiftStep(phaseDelta: real)
    requires phaseDelta > 0.5
    ensures OctaveShift(phaseDelta).0 == OctaveShift(phaseDelta * 0.5).0 + 2
  {
  }

  /** The shift reaches 8, which `prepare_block` refuses, exactly for increments above
      4: four halvings leave the increment above 1/2 only then. */
  lemma TooHighAboveFour(phaseDelta: real)
    ensures OctaveShift(phaseDelta).0 >= 8 <==> phaseDelta > 4.0
  {
    if phaseDelta > 0.5 {
      ShiftStep(phaseDelta);
      var a := phaseDelta * 0.5;
      if a > 0.5 {
        ShiftStep(a);
        var b := a * 0.5;
        if b > 0.5 {
          ShiftStep(b);
          var c := b * 0.5;
          if c > 0.5 {
            ShiftStep(c);
          }
        }
      }
    }
  }

  /** The registration moved up by `shift` harmonics: zeros below, then the start of the
      unshifted registration. */
  function ShiftedRegistration(unshifted: seq<real>, shift: nat): (r: seq<real>)
    requires shift <= 7 && |unshifted| >= 7 - shift
    ensures |r| == 7
    ensures forall i :: 0 <= i < shift ==> r[i] == 0.0
    ensures forall i :: shift <= i < 7 ==> r[i] == unshifted[i - shift]
  {
    seq(shift, _ => 0.0) + unshifted[..7 - shift]
  }

  /** The seven weights of a registration in total. */
  function RegistrationSum(r: seq<real>): real
    requires |r| == 7
  {
    r[0] + r[1] + r[2] + r[3] + r[4] + r[5] + r[6]
  }

  /** The gains of the 8-, 4-, 2- and 1-segment saws for a registration given as weights
      of harmonics 1 to 7: each saw's gain removes what the next saw adds of it. */
  datatype Gains = Gains(saw8: real, saw4: real, saw2: real, saw1: real)

  function GainTargets(r: seq<real>, gain: real): Gains
    requires |r| == 7
  {
    Gains(gain * (r[0] + 2.0 * r[1]), gain * (r[2] - r[1] + 2.0 * r[3]),
          gain * (r[4] - r[3] + 2.0 * r[5]), gain * (r[6] - r[5]))
  }

  /** The four gains add up to the gain times the registration's total. */
  lemma GainTargetsTotal(r: seq<real>, gain: real)
    requires |r| == 7
    ensures var g := GainTargets(r, gain); g.saw8 + g.saw4 + g.saw2 + g.saw1 == gain * RegistrationSum(r)
  {
    var a, b, c, d := r[0] + 2.0 * r[1], r[2] - r[1] + 2.0 * r[3], r[4] - r[3] + 2.0 * r[5], r[6] - r[5];
    assert a + b + c + d == RegistrationSum(r);
    assert gain * a + gain * b + gain * c + gain * d == gain * (a + b + c + d);
  }

  /** The fields of a `StringSynthOscillator`; each smoother is represented by the
      target `prepare_block` gives it. */
  datatype StringState = StringState(phase: real, segment: I32, nextSample: real,
                                     frequencyTarget: real, gainTargets: Gains)

  /** `Default`: phase, segment and carry at 0; the smoothers start at 0. */
  const DEFAULT_STRING: StringState := StringState(0.0, 0, 0.0, 0.0, Gains(0.0, 0.0, 0.0, 0.0))

  /** `prepare_block` needs `7 - shift` weights when the shift is below 8. */
  predicate RegistrationLongEnough(unshifted: seq<real>, phaseDelta: real)
  {
    var shift := OctaveShift(phaseDelta).0;
    shift < 8 ==> |unshifted| >= 7 - shift
  }

  /** `prepare_block`: nothing when the shift reaches 8, otherwise the clamped shifted
      increment and the gains of the shifted registration become the targets. */
  function PreparedString(s: StringState, unshifted: seq<real>, gain: real, phaseDelta: real): (r: StringState)
    requires RegistrationLongEnough(unshifted, phaseDelta)
    ensures OctaveShift(phaseDelta).0 >= 8 ==> r == s
    ensures r.phase == s.phase && r.segment == s.segment && r.nextSample == s.nextSample
    ensures OctaveShift(phaseDelta).0 < 8 ==> MIN_FREQUENCY <= r.frequencyTarget <= MAX_FREQUENCY
    ensures var octaves := OctaveShift(phaseDelta);
      octaves.0 < 8 ==>
        r.frequencyTarget == Clamp(octaves.1, MIN_FREQUENCY, MAX_FREQUENCY) &&
        r.gainTargets == GainTargets(ShiftedRegistration(unshifted, octaves.0), gain)
  {
    var octaves := OctaveShift(phaseDelta);
    if octaves.0 >= 8 then s
    else
      var registration := ShiftedRegistration(unshifted, octaves.0);
      s.(frequencyTarget := Clamp(octaves.1, MIN_FREQUENCY, MAX_FREQUENCY),
         gainTargets := GainTargets(registration, gain))
  }

  /** The weights of a registration in total, first to last. */
  function Total(s: seq<real>): real
  {
    if s == [] then 0.0 else s[0] + Total(s[1..])
  }

  /** Leading zeros add nothing to a total. */
  lemma {:induction false} TotalAfterZeros(s: seq<real>, n: nat)
    requires n <= |s| && forall i :: 0 <= i < n ==> s[i] == 0.0
    ensures Total(s) == Total(s[n..])
  {
    if n > 0 {
      TotalAfterZeros(s[1..], n - 1);
      assert s[1..][n - 1..] == s[n..];
    }
  }

  lemma TotalOfSeven(r: seq<real>)
    requires |r| == 7
    ensures Total(r) == RegistrationSum(r)
  {
    assert r[1..][1..][1..][1..][1..][1..][1..] == [];
    assert Total(r[6..]) == r[6] by { assert r[6..][1..] == []; }
    assert Total(r[5..]) == r[5] + r[6] by { assert r[5..][1..] == r[6..]; }
    assert Total(r[4..]) == r[4] + r[5] + r[6] by { assert r[4..][1..] == r[5..]; }
    assert Total(r[3..]) == r[3] + r[4] + r[5] + r[6] by { assert r[3..][1..] == r[4..]; }
    assert Total(r[2..]) == r[2] + r[3] + r[4] + r[5] + r[6] by { assert r[2..][1..] == r[3..]; }
    assert Total(r[1..]) == r[1] + r[2] + r[3] + r[4] + r[5] + r[6] by { assert r[1..][1..] == r[2..]; }
  }

  /** After a `prepare_block` that does not refuse, the four gain targets add up to the
      gain times the weights the shift keeps: the first `7 - shift` of the unshifted
      registration, moved up by `shift` harmonics. */
  lemma PreparedGainsTotal(s: StringState, unshifted: seq<real>, gain: real, phaseDelta: real)
    requires RegistrationLongEnough(unshifted, phaseDelta)
    requires OctaveShift(phaseDelta).0 < 8
    ensures var g := PreparedString(s, unshifted, gain, phaseDelta).gainTargets;
      var shift := OctaveShift(phaseDelta).0;
      g.saw8 + g.saw4 + g.saw2 + g.saw1 == gain * Total(unshifted[..7 - shift])
  {
    var shift := OctaveShift(phaseDelta).0;
    var r := ShiftedRegistration(unshifted, shift);
    GainTargetsTotal(r, gain);
    TotalOfSeven(r);
    TotalAfterZeros(r, shift);
    assert r[shift..] == unshifted[..7 - shift];
  }

  // ---------------------------------------------------------------- process

  /** The five values the smoothers produce for one sample. */
  datatype StringSmoothed = StringSmoothed(frequency: real, gains: Gains)

  /** The jump of the mix where a segment starts: each saw that restarts there drops by
      its gain. The 1-segment saw restarts every segment, the 2-segment saw at even
      segments, the 4-segment saw at multiples of 4 and the 8-segment saw at the wrap. */
  function Discontinuity(segment: I32, wrapped: bool, g: Gains): real
  {
    var d := 0.0 - (if wrapped then g.saw8 else 0.0);
    var d := d - (if Mask(segment, 3) == 0 then g.saw4 else 0.0);
    var d := d - (if Mask(segment, 1) == 0 then g.saw2 else 0.0);
    d - g.saw1
  }

  /** The four saws at `phase` in `segment`, each in [-1/2, 1/2) times its gain. */
  function NaiveString(phase: real, segment: I32, g: Gains): real
  {
    (phase - 4.0) * g.saw8 * 0.125
    + (phase - Mask(segment, 4) as real - 2.0) * g.saw4 * 0.25
    + (phase - Mask(segment, 6) as real - 1.0) * g.saw2 * 0.5
    + (phase - Mask(segment, 7) as real - 0.0) * g.saw1
  }

  /** Where the phase lands in one call: its new value (wrapped by 8 at the top), its
      segment, and the jump to correct (0 without a segment change). */
  datatype StringEdge = StringEdge(phase: real, segment: I32, discontinuity: real)

  function SegmentStep(s: StringState, sm: StringSmoothed): StringEdge
  {
    var phase := s.phase + sm.frequency;
    var nextSegment := CastI32(phase);
    if nextSegment == s.segment then StringEdge(phase, nextSegment, 0.0)
    else Crossing(phase, nextSegment, sm.gains)
  }

  /** A segment change at the advanced `phase`: segment 8 wraps to segment 0. */
  function Crossing(phase: real, nextSegment: I32, g: Gains): StringEdge
  {
    if nextSegment == 8
    then StringEdge(phase - 8.0, nextSegment - 8, Discontinuity(nextSegment - 8, true, g))
    else StringEdge(phase, nextSegment, Discontinuity(nextSegment, false, g))
  }

  /** The BLEP is placed by dividing by the frequency, whenever there is a jump. */
  predicate StringDefined(s: StringState, sm: StringSmoothed)
  {
    SegmentStep(s, sm).discontinuity != 0.0 ==> sm.frequency != 0.0
  }

  /** Where in the sample period the phase crossed the segment boundary. */
  function Position(e: StringEdge, frequency: real): real
    requires frequency != 0.0
  {
    (e.phase - e.segment as real) / frequency
  }

  /** A jump `d` at `t` band-limited: its halves in this and the next sample. */
  function ThisStep(d: real, t: real): real
  {
    d * ThisBlep(t)
  }

  function NextStep(d: real, t: real): real
  {
    d * NextBlep(t)
  }

  /** The halves of the BLEP for this and the next sample; none without a jump. */
  function ThisPart(e: StringEdge, frequency: real): real
    requires e.discontinuity != 0.0 ==> frequency != 0.0
  {
    if e.discontinuity != 0.0 then ThisStep(e.discontinuity, Position(e, frequency)) else 0.0
  }

  function NextPart(e: StringEdge, frequency: real): real
    requires e.discontinuity != 0.0 ==> frequency != 0.0
  {
    if e.discontinuity != 0.0 then NextStep(e.discontinuity, Position(e, frequency)) else 0.0
  }

  /** One call of `process` with the smoothed values: the new state and the output. */
  function StringStep(s: StringState, sm: StringSmoothed): (r: (StringState, real))
    requires StringDefined(s, sm)
  {
    StepFrom(s, SegmentStep(s, sm), sm)
  }

  /** The rest of the call once the phase has moved to `e`: the carry becomes the BLEP's
      second half plus the four saws, and the output is twice the old carry plus the
      BLEP's first half. */
  function StepFrom(s: StringState, e: StringEdge, sm: StringSmoothed): (StringState, real)
    requires e.discontinuity != 0.0 ==> sm.frequency != 0.0
  {
    (s.(phase := e.phase, segment := e.segment,
        nextSample := NextPart(e, sm.frequency) + NaiveString(e.phase, e.segment, sm.gains)),
     2.0 * (s.nextSample + ThisPart(e, sm.frequency)))
  }

  /** The discontinuity rule in plain arithmetic: on a segment change the 1-segment saw
      always drops, the 2-segment saw iff the new segment is even, the 4-segment saw iff
      it is a multiple of 4 and the 8-segment saw iff the phase wrapped at 8. Without a
      change there is no jump. */
  lemma DiscontinuityRule(s: StringState, sm: StringSmoothed)
    ensures var e := SegmentStep(s, sm);
      var next := CastI32(s.phase + sm.frequency);
      var g := sm.gains;
      (next == s.segment ==> e.discontinuity == 0.0) &&
      (next != s.segment ==>
        e.discontinuity == 0.0 - (if next == 8 then g.saw8 else 0.0)
                               - (if e.segment % 4 == 0 then g.saw4 else 0.0)
                               - (if e.segment % 2 == 0 then g.saw2 else 0.0) - g.saw1)
  {
  }

  /** The four saws at a phase and segment whose offsets within each saw's period are
      known: each term is its offset times its gain. */
  lemma NaiveByCoefficients(phase: real, segment: I32, g: Gains, c8: real, c4: real, c2: real, c1: real)
    requires phase - 4.0 == c8 && phase - Mask(segment, 4) as real - 2.0 == c4
    requires phase - Mask(segment, 6) as real - 1.0 == c2 && phase - Mask(segment, 7) as real - 0.0 == c1
    ensures NaiveString(phase, segment, g) == c8 * g.saw8 * 0.125 + c4 * g.saw4 * 0.25 + c2 * g.saw2 * 0.5 + c1 * g.saw1
  {
  }

  /** The jump the BLEP corrects at the boundary `k` inside the 8-segment cycle is the
      step of the naive mix from segment k - 1 to segment k at phase k. */
  predicate NaiveStepMatches(k: int, g: Gains)
    requires 1 <= k <= 7
  {
    NaiveString(k as real, k, g) - NaiveString(k as real, k - 1, g) == Discontinuity(k, false, g)
  }

  /** The seven boundaries one at a time, each from the offsets of both segments. */
  lemma NaiveStepAtOne(g: Gains)
    ensures NaiveStepMatches(1, g)
  {
    NaiveByCoefficients(1.0, 0, g, -3.0, -1.0, 0.0, 1.0);
    NaiveByCoefficients(1.0, 1, g, -3.0, -1.0, 0.0, 0.0);
  }

  lemma NaiveStepAtTwo(g: Gains)
    ensures NaiveStepMatches(2, g)
  {
    NaiveByCoefficients(2.0, 1, g, -2.0, 0.0, 1.0, 1.0);
    NaiveByCoefficients(2.0, 2, g, -2.0, 0.0, -1.0, 0.0);
  }

  lemma NaiveStepAtThree(g: Gains)
    ensures NaiveStepMatches(3, g)
  {
    NaiveByCoefficients(3.0, 2, g, -1.0, 1.0, 0.0, 1.0);
    NaiveByCoefficients(3.0, 3, g, -1.0, 1.0, 0.0, 0.0);
  }

  lemma NaiveStepAtFour(g: Gains)
    ensures NaiveStepMatches(4, g)
  {
    NaiveByCoefficients(4.0, 3, g, 0.0, 2.0, 1.0, 1.0);
    NaiveByCoefficients(4.0, 4, g, 0.0, -2.0, -1.0, 0.0);
  }

  lemma NaiveStepAtFive(g: Gains)
    ensures NaiveStepMatches(5, g)
  {
    NaiveByCoefficients(5.0, 4, g, 1.0, -1.0, 0.0, 1.0);
    NaiveByCoefficients(5.0, 5, g, 1.0, -1.0, 0.0, 0.0);
  }

  lemma NaiveStepAtSix(g: Gains)
    ensures NaiveStepMatches(6, g)
  {
    NaiveByCoefficients(6.0, 5, g, 2.0, 0.0, 1.0, 1.0);
    NaiveByCoefficients(6.0, 6, g, 2.0, 0.0, -1.0, 0.0);
  }

  lemma NaiveStepAtSeven(g: Gains)
    ensures NaiveStepMatches(7, g)
  {
    NaiveByCoefficients(7.0, 6, g, 3.0, 1.0, 0.0, 1.0);
    NaiveByCoefficients(7.0, 7, g, 3.0, 1.0, 0.0, 0.0);
  }

  /** So the BLEP cancels exactly the step of the naive mix at every boundary. */
  lemma DiscontinuityIsNaiveStep(k: int, g: Gains)
    requires 1 <= k <= 7
    ensures NaiveStepMatches(k, g)
  {
    if k == 1 {
      NaiveStepAtOne(g);
    } else if k == 2 {
      NaiveStepAtTwo(g);
    } else if k == 3 {
      NaiveStepAtThree(g);
    } else if k == 4 {
      NaiveStepAtFour(g);
    } else if k == 5 {
      NaiveStepAtFive(g);
    } else if k == 6 {
      NaiveStepAtSix(g);
    } else {
      NaiveStepAtSeven(g);
    }
  }

  /** And at the wrap: from segment 7 at phase 8 to segment 0 at phase 0, where all four
      saws restart. */
  lemma DiscontinuityIsNaiveStepAtWrap(g: Gains)
    ensures NaiveString(0.0, 0, g) - NaiveString(8.0, 7, g) == Discontinuity(0, true, g)
  {
    NaiveByCoefficients(8.0, 7, g, 4.0, 2.0, 1.0, 1.0);
    NaiveByCoefficients(0.0, 0, g, -4.0, -2.0, -1.0, 0.0);
  }

  /** The phase is in [0, 8) and the segment is its integer part. */
  predicate StringValid(s: StringState)
  {
    0.0 <= s.phase < 8.0 && s.segment == s.phase.Floor
  }

  /** With a smoothed frequency in (0, 1/4], as the clamped target keeps it, every call
      keeps the phase in [0, 8) and the segment its integer part. */
  lemma StringStepKeepsValid(s: StringState, sm: StringSmoothed)
    requires StringValid(s) && 0.0 < sm.frequency <= MAX_FREQUENCY
    ensures StringValid(StringStep(s, sm).0)
  {
    var phase := s.phase + sm.frequency;
    assert CastI32(phase) == phase.Floor;
  }

  /** In that case every jump falls inside the sample period, so the BLEP kernels are
      evaluated in [0, 1). */
  lemma StringBlepInPeriod(s: StringState, sm: StringSmoothed)
    requires StringValid(s) && 0.0 < sm.frequency <= MAX_FREQUENCY
    requires CastI32(s.phase + sm.frequency) != s.segment
    ensures 0.0 <= Position(SegmentStep(s, sm), sm.frequency) < 1.0
  {
    var e := SegmentStep(s, sm);
    var phase := s.phase + sm.frequency;
    assert CastI32(phase) == phase.Floor;
    QuotientBelowOne(e.phase - e.segment as real, sm.frequency);
  }

  // ---------------------------------------------------------------- the table

  /** `REGISTRATION_TABLE`: eleven registrations, from a pure saw to a pure square. */
  const REGISTRATION_TABLE: seq<seq<real>> := [
    [1.0, 0.0, 0.0, 0.0, 0.0, 0.0, 0.0],
    [0.5, 0.0, 0.5, 0.0, 0.0, 0.0, 0.0],
    [0.4, 0.0, 0.2, 0.0, 0.4, 0.0, 0.0],
    [0.3, 0.0, 0.0, 0.3, 0.0, 0.4, 0.0],
    [0.3, 0.0, 0.0, 0.0, 0.0, 0.7, 0.0],
    [0.2, 0.0, 0.0, 0.2, 0.0, 0.6, 0.0],
    [0.0, 0.2, 0.1, 0.0, 0.2, 0.5, 0.0],
    [0.0, 0.3, 0.0, 0.3, 0.0, 0.4, 0.0],
    [0.0, 0.4, 0.0, 0.3, 0.0, 0.3, 0.0],
    [0.0, 0.5, 0.0, 0.5, 0.0, 0.0, 0.0],
    [0.0, 1.0, 0.0, 0.0, 0.0, 0.0, 0.0]
  ]

  /** A registration: seven weights in [0, 1] adding up to 1. */
  predicate IsRegistration(r: seq<real>)
  {
    |r| == 7 && (forall j :: 0 <= j < 7 ==> 0.0 <= r[j] <= 1.0) && RegistrationSum(r) == 1.0
  }

  lemma RegistrationTableWellFormed()
    ensures |REGISTRATION_TABLE| == 11
    ensures forall i :: 0 <= i < 11 ==> IsRegistration(REGISTRATION_TABLE[i])
  {
    forall i | 0 <= i < 11
      ensures IsRegistration(REGISTRATION_TABLE[i])
    {
      var r := REGISTRATION_TABLE[i];
      assert |r| == 7 && RegistrationSum(r) == 1.0;
    }
  }

  /** So an unshifted table row sets gains adding up to the gain. */
  lemma TableGainsTotal(i: int, gain: real)
    requires 0 <= i < 11
    ensures var g := GainTargets(REGISTRATION_TABLE[i], gain); g.saw8 + g.saw4 + g.saw2 + g.saw1 == gain
  {
    RegistrationTableWellFormed();
    GainTargetsTotal(REGISTRATION_TABLE[i], gain);
  }

  // ---------------------------------------------------------------- the object

  /** `StringSynthOscillator`. */
  class StringSynthOscillator {
    var phase: real
    var segment: I32
    var nextSample: real
    var frequencyTarget: real
    var gainTargets: Gains

    function State(): StringState
      reads this
    {
      StringState(phase, segment, nextSample, frequencyTarget, gainTargets)
    }

    constructor Default()
      ensures State() == DEFAULT_STRING
    {
      phase, segment, nextSample := 0.0, 0, 0.0;
      frequencyTarget := 0.0;
      gainTargets := Gains(0.0, 0.0, 0.0, 0.0);
    }

    /** The octave-shift loop of `prepare_block`. */
    static method ShiftOctaves(phaseDelta: real) returns (shift: nat, shifted: real)
      ensures (shift, shifted) == OctaveShift(phaseDelta)
    {
      shifted := phaseDelta;
      shift := 0;
      while shifted > 0.5
        invariant (shift + OctaveShift(shifted).0, OctaveShift(shifted).1) == OctaveShift(phaseDelta)
        decreases (2.0 * shifted).Floor
      {
        shift := shift + 2;
        shifted := shifted * 0.5;
      }
    }

    /** `[0.0; 7]` with `unshifted[0..7 - shift]` copied into `[shift..7]`. */
    static method ShiftRegistration(unshifted: seq<real>, shift: nat) returns (registration: array<real>)
      requires shift <= 7 && |unshifted| >= 7 - shift
      ensures fresh(registration) && registration[..] == ShiftedRegistration(unshifted, shift)
    {
      registration := new real[7](_ => 0.0);
      for i := shift to 7
        invariant forall j :: 0 <= j < shift ==> registration[j] == 0.0
        invariant forall j :: shift <= j < i ==> registration[j] == unshifted[j - shift]
      {
        registration[i] := unshifted[i - shift];
      }
    }

    method PrepareBlock(unshifted: seq<real>, gain: real, frequency: real, sampleRate: real)
      requires sampleRate != 0.0 && RegistrationLongEnough(unshifted, frequency / sampleRate)
      modifies this
      ensures State() == PreparedString(old(State()), unshifted, gain, frequency / sampleRate)
    {
      var shift, phaseDelta := ShiftOctaves(frequency / sampleRate);

      if shift >= 8 {
        return;
      }

      var registration := ShiftRegistration(unshifted, shift);

      frequencyTarget := Clamp(phaseDelta, MIN_FREQUENCY, MAX_FREQUENCY);
      gainTargets := GainsOf(registration, gain);
    }

    /** The four gain targets of `prepare_block` from the shifted registration. */
    static method GainsOf(registration: array<real>, gain: real) returns (g: Gains)
      requires registration.Length == 7
      ensures g == GainTargets(registration[..], gain)
    {
      g := Gains(gain * (registration[0] + 2.0 * registration[1]),
                 gain * (registration[2] - registration[1] + 2.0 * registration[3]),
                 gain * (registration[4] - registration[3] + 2.0 * registration[5]),
                 gain * (registration[6] - registration[5]));
    }

    /** The drops of the saws that restart at `segment`, summed in the order of
        `process`. */
    static method SumDrops(segment: I32, wrapped: bool, g: Gains) returns (discontinuity: real)
      ensures discontinuity == Discontinuity(segment, wrapped, g)
    {
      discontinuity := 0.0;
      if wrapped {
        discontinuity := discontinuity - g.saw8;
      }

      if Mask(segment, 3) == 0 {
        discontinuity := discontinuity - g.saw4;
      }

      if Mask(segment, 1) == 0 {
        discontinuity := discontinuity - g.saw2;
      }

      discontinuity := discontinuity - g.saw1;
    }

    /** The segment change of `process`: wrap at 8, sum the drops of the saws that
        restart and, for a non-zero jump, add its BLEP halves. The phase has been
        advanced and the carry moved to `thisSample`. */
    method Discontinue(ghost e: StringEdge, thisSample: real, nextSegment: I32,
                       sm: StringSmoothed)
      returns (thisSample': real, nextSegment': I32)
      requires e == Crossing(phase, nextSegment, sm.gains) && nextSample == 0.0
      requires e.discontinuity != 0.0 ==> sm.frequency != 0.0
      modifies this
      ensures phase == e.phase && nextSegment' == e.segment
      ensures thisSample' == thisSample + ThisPart(e, sm.frequency) && nextSample == NextPart(e, sm.frequency)
      ensures segment == old(segment) && frequencyTarget == old(frequencyTarget)
      ensures gainTargets == old(gainTargets)
    {
      thisSample' := thisSample;
      nextSegment' := nextSegment;
      var wrapped := false;
      if nextSegment' == 8 {
        phase := phase - 8.0;
        nextSegment' := nextSegment' - 8;
        wrapped := true;
      }
      var discontinuity := SumDrops(nextSegment', wrapped, sm.gains);
      assert discontinuity == e.discontinuity && phase == e.phase && nextSegment' == e.segment;

      thisSample' := AddBlep(e, thisSample', discontinuity, phase - nextSegment' as real, sm.frequency);
    }

    /** The BLEP of a non-zero jump, at the fraction of the segment already passed. */
    method AddBlep(ghost e: StringEdge, thisSample: real, discontinuity: real, fraction: real, frequency: real)
      returns (thisSample': real)
      requires discontinuity == e.discontinuity && fraction == e.phase - e.segment as real
      requires discontinuity != 0.0 ==> frequency != 0.0
      requires nextSample == 0.0
      modifies this
      ensures thisSample' == thisSample + ThisPart(e, frequency) && nextSample == NextPart(e, frequency)
      ensures phase == old(phase) && segment == old(segment)
      ensures frequencyTarget == old(frequencyTarget) && gainTargets == old(gainTargets)
    {
      thisSample' := thisSample;
      if discontinuity != 0.0 {
        var t := fraction / frequency;
        thisSample' := thisSample' + ThisStep(discontinuity, t);
        nextSample := NextStep(discontinuity, t);
      }
    }

    /** The four saws at the new phase, added to the carry. */
    method AddNaive(g: Gains)
      modifies this
      ensures nextSample == old(nextSample) + NaiveString(phase, segment, g)
      ensures phase == old(phase) && segment == old(segment)
      ensures frequencyTarget == old(frequencyTarget) && gainTargets == old(gainTargets)
    {
      var phase, segment := this.phase, this.segment;
      var saw8Gain, saw4Gain, saw2Gain, saw1Gain := g.saw8, g.saw4, g.saw2, g.saw1;
      var sample := nextSample;
      sample := sample + (phase - 4.0) * saw8Gain * 0.125;
      sample := sample + (phase - Mask(segment, 4) as real - 2.0) * saw4Gain * 0.25;
      sample := sample + (phase - Mask(segment, 6) as real - 1.0) * saw2Gain * 0.5;
      sample := sample + (phase - Mask(segment, 7) as real - 0.0) * saw1Gain;
      assert sample == old(nextSample) + NaiveString(phase, segment, g);
      nextSample := sample;
    }

    /** `process`, given the five values the smoothers produce for this sample. */
    method Process(sm: StringSmoothed) returns (output: real)
      requires StringDefined(State(), sm)
      modifies this
      ensures (State(), output) == StringStep(old(State()), sm)
    {
      ghost var before := State();
      ghost var e := SegmentStep(before, sm);
      var thisSample := nextSample;
      nextSample := 0.0;

      var frequency := sm.frequency;

      phase := phase + frequency;

      var nextSegment := CastI32(phase);
      if nextSegment != segment {
        thisSample, nextSegment := Discontinue(e, thisSample, nextSegment, sm);
      } else {
        assert e == StringEdge(phase, nextSegment, 0.0);
        assert ThisPart(e, frequency) == 0.0 && NextPart(e, frequency) == 0.0;
      }
      segment := nextSegment;
      output := Finish(before, e, thisSample, sm);
      assert StringStep(before, sm) == StepFrom(before, e, sm);
    }

    /** The end of `process`: the four saws at the new phase go to the carry and the
        output is twice this sample. */
    method Finish(ghost s: StringState, ghost e: StringEdge, thisSample: real, sm: StringSmoothed)
      returns (output: real)
      requires e.discontinuity != 0.0 ==> sm.frequency != 0.0
      requires phase == e.phase && segment == e.segment
      requires frequencyTarget == s.frequencyTarget && gainTargets == s.gainTargets
      requires thisSample == s.nextSample + ThisPart(e, sm.frequency) && nextSample == NextPart(e, sm.frequency)
      modifies this
      ensures (State(), output) == StepFrom(s, e, sm)
    {
      AddNaive(sm.gains);

      output := 2.0 * thisSample;
      ghost var naive := NaiveString(e.phase, e.segment, sm.gains);
      ghost var after := s.(phase := e.phase, segment := e.segment, nextSample := NextPart(e, sm.frequency) + naive);
      assert State() == after;
      assert StepFrom(s, e, sm) == (after, output);
    }
  }
}
