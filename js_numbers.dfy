/**
 * The JavaScript number conversions the fluid simulation relies on, over
 * unbounded integers and exact reals: ToInt32 (what `x | 0` and `<<` do),
 * Math.round, clamp01 and the ToUint8 conversion a Uint8Array store performs.
 */
module JsNumbers {

  const TwoTo31: int := 0x8000_0000
  const TwoTo32: int := 0x1_0000_0000

  /** A byte as a Uint8Array element holds it. */
  type Byte = x: int | 0 <= x < 256

  /** ECMAScript ToInt32 on an integral number: reduce modulo 2^32 into [-2^31, 2^31). */
  function ToInt32(x: int): (r: int)
    ensures -TwoTo31 <= r < TwoTo31
    ensures (x - r) % TwoTo32 == 0
  {
    var m := x % TwoTo32;
    if m >= TwoTo31 then m - TwoTo32 else m
  }

  /** ToInt32 only depends on the residue modulo 2^32. */
  lemma ToInt32Congruent(a: int, b: int)
    requires (a - b) % TwoTo32 == 0
    ensures ToInt32(a) == ToInt32(b)
  {
    var q := (a - b) / TwoTo32;
    assert a == b + q * TwoTo32;
    ModAddMultiple(b, q);
  }

  lemma ModAddMultiple(b: int, q: int)
    ensures (b + q * TwoTo32) % TwoTo32 == b % TwoTo32
  {
    var m := TwoTo32;
    var r := b % m;
    var d := b / m;
    assert b == d * m + r;
    assert b + q * m == (d + q) * m + r;
  }

  /** ToInt32 leaves a value that is already a 32-bit integer alone. */
  lemma ToInt32OfInt32(x: int)
    requires -TwoTo31 <= x < TwoTo31
    ensures ToInt32(x) == x
  {
    if x < 0 {
      assert x % TwoTo32 == x + TwoTo32;
    }
  }

  /** The JavaScript shift `h << 5`: ToInt32 of the operand, shifted, truncated to 32 bits. */
  function ShiftLeft5(h: int): (r: int)
    ensures -TwoTo31 <= r < TwoTo31
    ensures (r - 32 * h) % TwoTo32 == 0
  {
    ShiftLeft5Residue(h);
    ToInt32(ToInt32(h) * 32)
  }

  /** Shifting the 32-bit residue agrees with shifting the operand itself, modulo 2^32. */
  lemma ShiftLeft5Residue(h: int)
    ensures (ToInt32(ToInt32(h) * 32) - 32 * h) % TwoTo32 == 0
  {
    var t := ToInt32(h);
    var r := ToInt32(t * 32);
    var q1 := (t * 32 - r) / TwoTo32;
    var q2 := (h - t) / TwoTo32;
    assert t * 32 - r == q1 * TwoTo32;
    assert h - t == q2 * TwoTo32;
    assert r - 32 * h == (-q1 - 32 * q2) * TwoTo32;
    MultipleOfTwoTo32(-q1 - 32 * q2);
  }

  lemma MultipleOfTwoTo32(q: int)
    ensures (q * TwoTo32) % TwoTo32 == 0
  {
    ModAddMultiple(0, q);
  }

  /** Math.round on a finite number: the nearest integer, ties rounded up. */
  function Round(x: real): (r: int)
    ensures x - 0.5 < r as real <= x + 0.5
  {
    (x + 0.5).Floor
  }

  lemma RoundMonotone(x: real, y: real)
    requires x <= y
    ensures Round(x) <= Round(y)
  {
  }

  lemma RoundOfInt(n: int)
    ensures Round(n as real) == n
  {
  }

  /**
   * scaleByPixelRatio: a length in CSS pixels in device pixels, rounded down;
   * a devicePixelRatio of 0 (falsy) falls back to 1.
   */
  function ScaleByPixelRatio(input: real, devicePixelRatio: real): (r: int)
    ensures var ratio := if devicePixelRatio == 0.0 then 1.0 else devicePixelRatio;
            r as real <= input * ratio < r as real + 1.0
  {
    var ratio := if devicePixelRatio == 0.0 then 1.0 else devicePixelRatio;
    (input * ratio).Floor
  }

  /** Whole CSS lengths are unchanged on a display with one device pixel per CSS pixel (or with no ratio reported). */
  lemma ScaleAtUnitRatio(n: int)
    ensures ScaleByPixelRatio(n as real, 1.0) == n && ScaleByPixelRatio(n as real, 0.0) == n
  {
  }

  /** A longer length never scales to fewer device pixels. */
  lemma ScaleMonotone(a: real, b: real, devicePixelRatio: real)
    requires a <= b && devicePixelRatio >= 0.0
    ensures ScaleByPixelRatio(a, devicePixelRatio) <= ScaleByPixelRatio(b, devicePixelRatio)
  {
    var ratio := if devicePixelRatio == 0.0 then 1.0 else devicePixelRatio;
    assert a * ratio <= b * ratio;
  }

  /** clamp01: Math.min(Math.max(x, 0), 1). */
  function Clamp01(x: real): (r: real)
    ensures 0.0 <= r <= 1.0
    ensures 0.0 <= x <= 1.0 ==> r == x
    ensures x < 0.0 ==> r == 0.0
    ensures x > 1.0 ==> r == 1.0
  {
    var m := if x > 0.0 then x else 0.0;
    if m < 1.0 then m else 1.0
  }

  /** Truncation toward zero, as ECMAScript ToIntegerOrInfinity does. */
  function Trunc(x: real): (r: int)
    ensures x >= 0.0 ==> r as real <= x < r as real + 1.0
    ensures x < 0.0 ==> r as real - 1.0 < x <= r as real
  {
    if x >= 0.0 then x.Floor else -((-x).Floor)
  }

  /** The conversion applied when a number is stored into a Uint8Array. */
  function ToUint8(x: real): (r: Byte)
    ensures (r - Trunc(x)) % 256 == 0
  {
    Trunc(x) % 256
  }

  /** In range, a Uint8Array store is the floor of the value. */
  lemma ToUint8InRange(x: real)
    requires 0.0 <= x < 256.0
    ensures ToUint8(x) == x.Floor
  {
    assert 0 <= Trunc(x) < 256;
  }
}
