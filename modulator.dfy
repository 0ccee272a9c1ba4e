/** Stateless two-signal modulation algorithms of `src/modulator.rs`: each combines a
    modulator and a carrier sample under a parameter. The bipolar fold lookup table is
    not part of this model; `Fold` takes it as an argument (the slice from entry 2048 on). */
module Modulator {

  import opened Util

  datatype ModulationAlgorithm = XFade | Fold | AnalogRingModulation | DigitalRingModulation | Xor | Nop

  // ---------------------------------------------------------------- cross-fade

  function ProcessXFade(x1: real, x2: real, parameter: real): (r: real)
    ensures parameter == 0.0 ==> r == x1
    ensures parameter == 1.0 ==> r == x2
  {
    var fadeIn := 1.0 - parameter;
    var fadeOut := parameter;
    x1 * fadeIn + x2 * fadeOut
  }

  /** The two-gain form is the same linear cross-fade as the shared helper, so for a
      parameter in [0, 1] the output lies between the two inputs. */
  lemma XFadeIsCrossFade(x1: real, x2: real, parameter: real)
    ensures ProcessXFade(x1, x2, parameter) == CrossFade(x1, x2, parameter)
    ensures 0.0 <= parameter <= 1.0 ==> Min(x1, x2) <= ProcessXFade(x1, x2, parameter) <= Max(x1, x2)
  {
    assert x1 * (1.0 - parameter) + x2 * parameter == x1 + (x2 - x1) * parameter;
  }

  // ---------------------------------------------------------------- fold

  /** The table scale: the largest folded sum, 2.25, with 2% headroom, maps to 2048. */
  const FOLD_SCALE: real := 2048.0 / ((1.0 + 1.0 + 0.25) * 1.02)

  /** The folded sum x1 + x2 + x1 x2 / 4, scaled by 0.02 times the parameter. */
  function FoldIndex(x1: real, x2: real, parameter: real): real
  {
    (x1 + x2 + x1 * x2 * 0.25) * (0.02 * parameter)
  }

  /** Both table entries the interpolation reads exist. */
  predicate FoldInBounds(table: seq<real>, x1: real, x2: real, parameter: real)
  {
    TableIndex(FoldIndex(x1, x2, parameter), FOLD_SCALE) + 1 < |table|
  }

  function ProcessFold(table: seq<real>, x1: real, x2: real, parameter: real): (r: real)
    requires FoldInBounds(table, x1, x2, parameter)
    // at parameter 0 the fold reads the centre of the bipolar table
    ensures parameter == 0.0 ==> r == table[0]
    // otherwise, for a non-negative sum, it lies between two neighbouring entries
    ensures var i := TableIndex(FoldIndex(x1, x2, parameter), FOLD_SCALE);
      0.0 <= FoldIndex(x1, x2, parameter) ==> Min(table[i], table[i + 1]) <= r <= Max(table[i], table[i + 1])
    // for a negative sum the index saturates at 0 and the first two entries' line is extended
    ensures FoldIndex(x1, x2, parameter) < 0.0 ==>
      r == table[0] + (table[1] - table[0]) * (FoldIndex(x1, x2, parameter) * FOLD_SCALE)
  {
    InterpolateTable(table, FoldIndex(x1, x2, parameter), FOLD_SCALE)
  }

  /** A negative folded sum leaves the table: with the first entry below the second,
      the result falls below the first entry, so the bounds of the non-negative case
      do not carry over. */
  lemma FoldBelowTable(table: seq<real>, x1: real, x2: real, parameter: real)
    requires FoldInBounds(table, x1, x2, parameter)
    requires FoldIndex(x1, x2, parameter) < 0.0 && table[0] < table[1]
    ensures ProcessFold(table, x1, x2, parameter) < table[0]
  {
    var d := FoldIndex(x1, x2, parameter) * FOLD_SCALE;
    var rise := table[1] - table[0];
    assert d < 0.0 && rise > 0.0;
    assert rise * d < 0.0 by {
      assert rise * d == -(rise * -d);
    }
    assert ProcessFold(table, x1, x2, parameter) == table[0] + rise * d;
  }

  /** An instance: a carrier of -1 against a silent modulator at full parameter. */
  lemma FoldBelowTableExample()
    ensures FoldInBounds([0.0, 1.0, 2.0], -1.0, 0.0, 1.0)
    ensures ProcessFold([0.0, 1.0, 2.0], -1.0, 0.0, 1.0) < 0.0
  {
    assert FoldIndex(-1.0, 0.0, 1.0) == -0.02;
    FoldBelowTable([0.0, 1.0, 2.0], -1.0, 0.0, 1.0);
  }

  /** The fold treats the two inputs alike. */
  lemma FoldSymmetric(table: seq<real>, x1: real, x2: real, parameter: real)
    requires FoldInBounds(table, x1, x2, parameter)
    ensures FoldInBounds(table, x2, x1, parameter)
    ensures ProcessFold(table, x1, x2, parameter) == ProcessFold(table, x2, x1, parameter)
  {
    assert x1 * x2 == x2 * x1;
  }

  lemma ProductInUnitRange(a: real, b: real)
    requires -1.0 <= a <= 1.0 && -1.0 <= b <= 1.0
    ensures -1.0 <= a * b <= 1.0
  {
    if b >= 0.0 {
      ProductMonotone(a, 1.0, b);
      ProductMonotone(-1.0, a, b);
      assert -b <= a * b <= b;
    } else {
      ProductAntitone(a, 1.0, b);
      ProductAntitone(-1.0, a, b);
      assert b <= a * b <= -b;
    }
  }

  /** For signals in [-1, 1] and a parameter in [0, 1] the fold reads at most entry 41,
      so a table of 42 entries past the centre is enough. */
  lemma {:induction false} FoldIndexBounded(x1: real, x2: real, parameter: real)
    requires -1.0 <= x1 <= 1.0 && -1.0 <= x2 <= 1.0 && 0.0 <= parameter <= 1.0
    ensures TableIndex(FoldIndex(x1, x2, parameter), FOLD_SCALE) <= 40
  {
    ProductInUnitRange(x1, x2);
    var s := x1 + x2 + x1 * x2 * 0.25;
    assert -2.25 <= s <= 2.25;
    var q := 0.02 * parameter;
    assert 0.0 <= q <= 0.02;
    assert s * q <= 2.25 * q by {
      assert (2.25 - s) * q >= 0.0;
    }
    assert s * q <= 0.045;
    assert FoldIndex(x1, x2, parameter) * FOLD_SCALE <= 0.045 * FOLD_SCALE;
  }

  // ---------------------------------------------------------------- ring modulation

  /** Diode non-linearity after Parker's digital ring-modulator model: silent inside
      the dead zone |x| <= 0.667, quadratic in the excess outside it. */
  function Diode(x: real): (r: real)
    ensures Abs(x) <= 0.667 ==> r == 0.0
  {
    var sign := if x > 0.0 then 1.0 else -1.0;
    var deadZone := Abs(x) - 0.667;
    var rectified := deadZone + Abs(deadZone);
    var squared := rectified * rectified;
    0.04324765822726063 * squared * sign
  }

  lemma DiodeOdd(x: real)
    ensures Diode(-x) == -Diode(x)
  {
  }

  function ProcessAnalogRingModulation(modulator: real, carrier: real, parameter: real): (r: real)
    // both diodes in their dead zone: silence
    ensures Abs(modulator + 2.0 * carrier) <= 0.667 && Abs(modulator - 2.0 * carrier) <= 0.667 ==> r == 0.0
  {
    var carrier' := carrier * 2.0;
    var ring := Diode(modulator + carrier') + Diode(modulator - carrier');
    var ring' := ring * (4.0 + parameter * 24.0);
    SoftLimit(ring')
  }

  /** Inverting the modulator inverts the output. */
  lemma AnalogRingOddInModulator(modulator: real, carrier: real, parameter: real)
    ensures ProcessAnalogRingModulation(-modulator, carrier, parameter)
         == -ProcessAnalogRingModulation(modulator, carrier, parameter)
  {
    var sum, difference := modulator + carrier * 2.0, modulator - carrier * 2.0;
    DiodeOdd(sum);
    DiodeOdd(difference);
    assert -modulator + carrier * 2.0 == -difference && -modulator - carrier * 2.0 == -sum;
    var ring := Diode(sum) + Diode(difference);
    assert Diode(-modulator + carrier * 2.0) + Diode(-modulator - carrier * 2.0) == -ring;
    var gain := 4.0 + parameter * 24.0;
    assert (-ring) * gain == -(ring * gain);
    SoftLimitOdd(ring * gain);
  }

  /** The carrier's sign does not matter: the two diodes swap. */
  lemma AnalogRingEvenInCarrier(modulator: real, carrier: real, parameter: real)
    ensures ProcessAnalogRingModulation(modulator, -carrier, parameter)
         == ProcessAnalogRingModulation(modulator, carrier, parameter)
  {
    assert modulator + (-carrier) * 2.0 == modulator - carrier * 2.0;
    assert modulator - (-carrier) * 2.0 == modulator + carrier * 2.0;
  }

  /** 4 m c (1 + 8 p), squashed by x / (1 + |x|). */
  function ProcessDigitalRingModulation(modulator: real, carrier: real, parameter: real): (r: real)
    ensures -1.0 < r < 1.0
    ensures r == 0.0 <==> (modulator == 0.0 || carrier == 0.0 || 1.0 + parameter * 8.0 == 0.0)
  {
    var ring := 4.0 * modulator * carrier * (1.0 + parameter * 8.0);
    var r := ring / (1.0 + Abs(ring));
    assert -1.0 < r < 1.0 by {
      assert r * (1.0 + Abs(ring)) == ring;
    }
    assert r == 0.0 <==> ring == 0.0 by {
      assert r * (1.0 + Abs(ring)) == ring;
    }
    r
  }

  lemma DigitalRingSymmetric(modulator: real, carrier: real, parameter: real)
    ensures ProcessDigitalRingModulation(modulator, carrier, parameter)
         == ProcessDigitalRingModulation(carrier, modulator, parameter)
  {
    assert 4.0 * modulator * carrier == 4.0 * carrier * modulator;
  }

  // ---------------------------------------------------------------- xor

  function Pow2(n: nat): (p: nat)
    ensures p >= 1
  {
    if n == 0 then 1 else 2 * Pow2(n - 1)
  }

  /** Bitwise exclusive or of the low `width` bits of two naturals, least
      significant bit first. */
  function XorBits(a: nat, b: nat, width: nat): (r: nat)
    ensures r < Pow2(width)
  {
    if width == 0 then 0
    else (if a % 2 == b % 2 then 0 else 1) + 2 * XorBits(a / 2, b / 2, width - 1)
  }

  lemma {:induction false} XorBitsCommutes(a: nat, b: nat, width: nat)
    ensures XorBits(a, b, width) == XorBits(b, a, width)
  {
    if width > 0 {
      XorBitsCommutes(a / 2, b / 2, width - 1);
    }
  }

  lemma {:induction false} XorBitsSelf(a: nat, width: nat)
    ensures XorBits(a, a, width) == 0
  {
    if width > 0 {
      XorBitsSelf(a / 2, width - 1);
    }
  }

  lemma {:induction false} XorBitsZero(a: nat, width: nat)
    requires a < Pow2(width)
    ensures XorBits(a, 0, width) == a
  {
    if width > 0 {
      XorBitsZero(a / 2, width - 1);
    }
  }

  /** The top bit of the result is set exactly when one of the top bits is set. */
  lemma {:induction false} XorBitsTopBit(a: nat, b: nat, width: nat)
    requires a < Pow2(width + 1) && b < Pow2(width + 1)
    ensures (XorBits(a, b, width + 1) >= Pow2(width)) == ((a >= Pow2(width)) != (b >= Pow2(width)))
  {
    if width > 0 {
      XorBitsTopBit(a / 2, b / 2, width - 1);
    }
  }

  /** An i16's two's-complement bit pattern as an unsigned 16-bit value, and back. */
  function ToUnsigned(x: I16): (n: nat)
    ensures n < 65536 && (n >= 32768) == (x < 0)
  {
    if x < 0 then x + 65536 else x
  }

  function FromUnsigned(n: nat): (x: I16)
    requires n < 65536
    ensures (x < 0) == (n >= 32768)
  {
    if n >= 32768 then n - 65536 else n
  }

  lemma SixteenBits()
    ensures Pow2(15) == 32768 && Pow2(16) == 65536
  {
    assert Pow2(5) == 32;
    assert Pow2(10) == 1024;
  }

  /** `^` on i16. */
  function Xor16(a: I16, b: I16): (r: I16)
    ensures (r < 0) == ((a < 0) != (b < 0))
    ensures a == b ==> r == 0
    ensures b == 0 ==> r == a
  {
    SixteenBits();
    XorBitsTopBit(ToUnsigned(a), ToUnsigned(b), 15);
    XorBitsSelf(ToUnsigned(a), 16);
    XorBitsZero(ToUnsigned(a), 16);
    FromUnsigned(XorBits(ToUnsigned(a), ToUnsigned(b), 16))
  }

  lemma Xor16Commutes(a: I16, b: I16)
    ensures Xor16(a, b) == Xor16(b, a)
  {
    XorBitsCommutes(ToUnsigned(a), ToUnsigned(b), 16);
  }

  /** A sample in [-1, 1] as a 16-bit integer: scale, truncate, saturate, clip. */
  function Quantize(x: real): (q: I16)
    ensures -1.0 <= x < 1.0 ==> q == Trunc(x * 32768.0)
  {
    Clip16(CastI32(x * 32768.0))
  }

  /** The bitwise XOR of the two quantised inputs, back as a sample. */
  function XorSample(x1: real, x2: real): (r: real)
    ensures -1.0 <= r < 1.0
    ensures x1 == x2 ==> r == 0.0
  {
    Xor16(Quantize(x1), Quantize(x2)) as real / 32768.0
  }

  /** From the scaled sum (parameter 0) to the XOR sample (parameter 1). */
  function Mix(sum: real, modulator: real, parameter: real): (r: real)
    ensures parameter == 0.0 ==> r == sum
    ensures parameter == 1.0 ==> r == modulator
  {
    sum + (modulator - sum) * parameter
  }

  function ProcessXor(x1: real, x2: real, parameter: real): (r: real)
    ensures parameter == 0.0 ==> r == 0.7 * (x1 + x2)
    ensures parameter == 1.0 ==> r == XorSample(x1, x2)
  {
    var modulator := XorSample(x1, x2);
    var sum := (x1 + x2) * 0.7;
    Mix(sum, modulator, parameter)
  }

  lemma XorSymmetric(x1: real, x2: real, parameter: real)
    ensures ProcessXor(x1, x2, parameter) == ProcessXor(x2, x1, parameter)
  {
    XorSampleSymmetric(x1, x2);
  }

  lemma XorSampleSymmetric(x1: real, x2: real)
    ensures XorSample(x1, x2) == XorSample(x2, x1)
  {
    Xor16Commutes(Quantize(x1), Quantize(x2));
  }

  // ---------------------------------------------------------------- nop and dispatch

  function ProcessNop(modulator: real, carrier: real, parameter: real): real
  {
    modulator
  }

  /** `ModulationAlgorithm::process`: each variant goes to its own algorithm; only the
      fold needs its table reads in bounds. */
  function Process(algorithm: ModulationAlgorithm, modulator: real, carrier: real, parameter: real,
                   foldTable: seq<real>): (r: real)
    requires algorithm == Fold ==> FoldInBounds(foldTable, modulator, carrier, parameter)
    ensures algorithm == XFade ==> r == ProcessXFade(modulator, carrier, parameter)
    ensures algorithm == Fold ==> r == ProcessFold(foldTable, modulator, carrier, parameter)
    ensures algorithm == AnalogRingModulation ==> r == ProcessAnalogRingModulation(modulator, carrier, parameter)
    ensures algorithm == DigitalRingModulation ==> r == ProcessDigitalRingModulation(modulator, carrier, parameter)
    ensures algorithm == Xor ==> r == ProcessXor(modulator, carrier, parameter)
    ensures algorithm == Nop ==> r == modulator
  {
    match algorithm
    case XFade => ProcessXFade(modulator, carrier, parameter)
    case Fold => ProcessFold(foldTable, modulator, carrier, parameter)
    case AnalogRingModulation => ProcessAnalogRingModulation(modulator, carrier, parameter)
    case DigitalRingModulation => ProcessDigitalRingModulation(modulator, carrier, parameter)
    case Xor => ProcessXor(modulator, carrier, parameter)
    case Nop => ProcessNop(modulator, carrier, parameter)
  }

  /** With a silent carrier, every algorithm but the fold and the analog ring modulator
      reduces to a scaled modulator (or to silence). */
  lemma SilentCarrier(modulator: real, parameter: real)
    ensures ProcessDigitalRingModulation(modulator, 0.0, parameter) == 0.0
    ensures ProcessXFade(modulator, 0.0, parameter) == modulator * (1.0 - parameter)
    ensures Process(Nop, modulator, 0.0, parameter, []) == modulator
  {
  }
}
