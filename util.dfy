/** Numeric helpers shared by the oscillators and the modulators: saturators,
    linear cross-fade, table interpolation, 16-bit clipping, and the integer
    casts Rust performs on 32-bit floats. */
module Util {

  datatype Option<T> = None | Some(value: T)

  const I16_MIN: int := -32768
  const I16_MAX: int := 32767
  const I32_MIN: int := -0x8000_0000
  const I32_MAX: int := 0x7fff_ffff

  /** Values of Rust's `i16`. */
  type I16 = x: int | I16_MIN <= x <= I16_MAX
  /** Values of Rust's `i32`. */
  type I32 = x: int | I32_MIN <= x <= I32_MAX
  /** Values of Rust's `u8` (MIDI note numbers). */
  type U8 = x: int | 0 <= x < 256

  function Min(a: real, b: real): (m: real)
    ensures m <= a && m <= b && (m == a || m == b)
  {
    if a < b then a else b
  }

  function Max(a: real, b: real): (m: real)
    ensures m >= a && m >= b && (m == a || m == b)
  {
    if a > b then a else b
  }

  function Abs(x: real): (a: real)
    ensures a >= 0.0 && (a == x || a == -x)
  {
    if x < 0.0 then -x else x
  }

  /** `f32::clamp`: the source panics unless `lo <= hi`. */
  function Clamp(x: real, lo: real, hi: real): (c: real)
    requires lo <= hi
    ensures lo <= c <= hi
    ensures lo <= x <= hi ==> c == x
    ensures x < lo ==> c == lo
    ensures x > hi ==> c == hi
  {
    if x < lo then lo else if x > hi then hi else x
  }

  /** Truncation toward zero, the first half of a float-to-integer cast. */
  function Trunc(x: real): (n: int)
    ensures 0.0 <= x ==> n as real <= x < n as real + 1.0
    ensures x < 0.0 ==> n as real - 1.0 < x <= n as real
  {
    if x >= 0.0 then x.Floor else -((-x).Floor)
  }

  /** `x as i32`: truncation toward zero, saturating at the bounds of i32. */
  function CastI32(x: real): (n: I32)
    ensures I32_MIN <= Trunc(x) <= I32_MAX ==> n == Trunc(x)
    ensures Trunc(x) < I32_MIN ==> n == I32_MIN
    ensures Trunc(x) > I32_MAX ==> n == I32_MAX
  {
    var t := Trunc(x);
    if t < I32_MIN then I32_MIN else if t > I32_MAX then I32_MAX else t
  }

  /** `x as usize`: truncation toward zero; negative values saturate to 0. */
  function CastUsize(x: real): (n: nat)
    ensures 0.0 <= x ==> n as real <= x < n as real + 1.0
    ensures x < 1.0 ==> n == 0
  {
    if x < 0.0 then 0 else x.Floor
  }

  lemma SquareNonNegative(x: real)
    ensures x * x >= 0.0
  {
    if x < 0.0 {
      assert x * x == (-x) * (-x);
    }
  }

  /** Rational approximation of tanh used by the ring modulator; it keeps the sign of
      its input. */
  function SoftLimit(x: real): (r: real)
    ensures (0.0 <= x ==> 0.0 <= r) && (x <= 0.0 ==> r <= 0.0)
  {
    SquareNonNegative(x);
    x * (27.0 + x * x) / (27.0 + 9.0 * x * x)
  }

  lemma SoftLimitOdd(x: real)
    ensures SoftLimit(-x) == -SoftLimit(x)
    ensures SoftLimit(0.0) == 0.0
  {
  }

  lemma SoftLimitAtThree()
    ensures SoftLimit(3.0) == 1.0
    ensures SoftLimit(-3.0) == -1.0
  {
  }

  lemma ProductNonNegative(a: real, b: real)
    requires a >= 0.0 && b >= 0.0
    ensures a * b >= 0.0
  {
  }

  /** Multiplying by a non-negative factor keeps the order. */
  lemma ProductMonotone(a: real, b: real, c: real)
    requires a <= b && c >= 0.0
    ensures a * c <= b * c
  {
    ProductNonNegative(b - a, c);
    assert (b - a) * c == b * c - a * c;
  }

  /** Multiplying by a non-positive factor reverses the order. */
  lemma ProductAntitone(a: real, b: real, c: real)
    requires a <= b && c <= 0.0
    ensures b * c <= a * c
  {
    ProductNonNegative(b - a, -c);
    assert (b - a) * (-c) == a * c - b * c;
  }

  /** `-d <= n <= d` with `d > 0` puts `n / d` in [-1, 1]. */
  lemma QuotientInUnitRange(n: real, d: real)
    requires d > 0.0 && -d <= n <= d
    ensures -1.0 <= n / d <= 1.0
  {
    var q := n / d;
    assert q * d == n;
    if q > 1.0 {
      ProductNonNegative(q - 1.0, d);
      assert false;
    }
    if q < -1.0 {
      ProductNonNegative(-1.0 - q, d);
      assert false;
    }
  }

  /** `0 <= n < d` puts `n / d` in [0, 1). */
  lemma QuotientBelowOne(n: real, d: real)
    requires d > 0.0 && 0.0 <= n < d
    ensures 0.0 <= n / d < 1.0
  {
    var q := n / d;
    assert q * d == n;
    if q >= 1.0 {
      ProductNonNegative(q - 1.0, d);
      assert false;
    }
    if q < 0.0 {
      ProductNonNegative(-q, d);
      assert false;
    }
  }

  /** On [-3, 3] the limiter stays in [-1, 1]: 27 + 9x^2 -/+ x(27 + x^2) is (3 -/+ x)^3. */
  lemma {:induction false} SoftLimitBounded(x: real)
    requires -3.0 <= x <= 3.0
    ensures -1.0 <= SoftLimit(x) <= 1.0
  {
    SquareNonNegative(x);
    var d := 27.0 + 9.0 * x * x;
    var n := x * (27.0 + x * x);
    assert d - n == (3.0 - x) * (3.0 - x) * (3.0 - x);
    assert d + n == (3.0 + x) * (3.0 + x) * (3.0 + x);
    SquareNonNegative(3.0 - x);
    SquareNonNegative(3.0 + x);
    ProductNonNegative((3.0 - x) * (3.0 - x), 3.0 - x);
    ProductNonNegative((3.0 + x) * (3.0 + x), 3.0 + x);
    QuotientInUnitRange(n, d);
  }

  /** Hard clip outside [-3, 3], the soft limiter inside; continuous at both ends. */
  function SoftClip(x: real): (r: real)
    ensures -1.0 <= r <= 1.0
    ensures x < -3.0 ==> r == -1.0
    ensures x > 3.0 ==> r == 1.0
    ensures -3.0 <= x <= 3.0 ==> r == SoftLimit(x)
  {
    if x < -3.0 then -1.0
    else if x > 3.0 then 1.0
    else SoftLimitBounded(x); SoftLimit(x)
  }

  lemma SoftClipContinuousAtThree()
    ensures SoftClip(3.0) == 1.0 && SoftClip(-3.0) == -1.0
  {
    SoftLimitAtThree();
  }

  /** Linear cross-fade from `a` (fade 0) to `b` (fade 1). */
  function CrossFade(a: real, b: real, fade: real): (r: real)
    ensures fade == 0.0 ==> r == a
    ensures fade == 1.0 ==> r == b
    ensures 0.0 <= fade <= 1.0 ==> Min(a, b) <= r <= Max(a, b)
  {
    var r := a + (b - a) * fade;
    assert 0.0 <= fade <= 1.0 ==> Min(a, b) <= r <= Max(a, b) by {
      if 0.0 <= fade <= 1.0 {
        if a <= b {
          ProductNonNegative(b - a, fade);
          ProductNonNegative(b - a, 1.0 - fade);
        } else {
          ProductNonNegative(a - b, fade);
          ProductNonNegative(a - b, 1.0 - fade);
        }
      }
    }
    r
  }

  /** The table entry at or below the scaled index; 0 for a scaled index below 1,
      negative ones included. */
  function TableIndex(index: real, size: real): (n: nat)
    ensures 0.0 <= index * size ==> n as real <= index * size < n as real + 1.0
    ensures index * size < 1.0 ==> n == 0
  {
    CastUsize(index * size)
  }

  /** Linear interpolation into `table` at `index * size`; the source panics unless
      both neighbouring entries exist. */
  function InterpolateTable(table: seq<real>, index: real, size: real): (r: real)
    requires TableIndex(index, size) + 1 < |table|
    ensures var i := TableIndex(index, size);
      (0.0 <= index * size ==> Min(table[i], table[i + 1]) <= r <= Max(table[i], table[i + 1]))
      && (index * size == i as real ==> r == table[i])
      // below the table the first two entries' line is extended
      && (index * size < 0.0 ==> r == table[0] + (table[1] - table[0]) * (index * size))
  {
    var scaled := index * size;
    var integral := CastUsize(scaled);
    var fractional := scaled - integral as real;
    var a := table[integral];
    var b := table[integral + 1];
    assert 0.0 <= scaled ==> 0.0 <= fractional <= 1.0;
    CrossFade(a, b, fractional)
  }

  /** Saturate a 32-bit integer into the 16-bit range. */
  function Clip16(x: I32): (r: I16)
    ensures I16_MIN <= x <= I16_MAX ==> r == x
    ensures x < I16_MIN ==> r == I16_MIN
    ensures x > I16_MAX ==> r == I16_MAX
  {
    if x < -32768 then -32768
    else if x > 32767 then 32767
    else x
  }

  lemma Clip16Idempotent(x: I32)
    ensures Clip16(Clip16(x)) == Clip16(x)
  {
  }
}
