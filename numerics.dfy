/**
 * Numeric building blocks of the tone generator: the value of pi the program
 * uses, the signed 16-bit sample type and Rust's float-to-i16 cast, and the
 * complex numbers that make up the sine oscillators' rotors.
 */
module Numerics {

  /** Rust's `std::f64::consts::PI`, written out as the exact value of that double. */
  const PI: real := 3.141592653589793115997963468544185161590576171875

  /** One full turn, `2.*PI` in the program. */
  const TwoPi: real := 2.0 * PI

  /** A signed 16-bit PCM sample. */
  newtype i16 = x: int | -0x8000 <= x < 0x8000

  /**
   * Rust's `x as i16` for a finite `x`: the fractional part is cut off
   * (rounding toward zero) and values beyond the type's range saturate at
   * its bounds instead of wrapping.
   */
  function ToI16(x: real): (r: i16)
    ensures 0.0 <= x ==> 0 <= r && r as real <= x && (x < r as real + 1.0 || r == 0x7FFF)
    ensures x < 0.0 ==> r <= 0 && x <= r as real && (r as real - 1.0 < x || r == -0x8000)
  {
    if x >= 32767.0 then 0x7FFF
    else if x <= -32768.0 then -0x8000
    else if x >= 0.0 then x.Floor as i16
    else (-((-x).Floor)) as i16
  }

  /** A whole number inside the 16-bit range passes through the cast unchanged. */
  lemma ToI16Whole(n: int)
    requires -0x8000 <= n < 0x8000
    ensures ToI16(n as real) as int == n
  {
  }

  /** The cast preserves order. */
  lemma ToI16Monotone(x: real, y: real)
    requires x <= y
    ensures ToI16(x) <= ToI16(y)
  {
  }

  datatype Complex = Complex(re: real, im: real)

  /** Complex multiplication, `*=` on `num_complex::Complex<f64>` without rounding. */
  function Mul(a: Complex, b: Complex): Complex
  {
    Complex(a.re * b.re - a.im * b.im, a.re * b.im + a.im * b.re)
  }

  /** The squared magnitude |a|^2. */
  function NormSq(a: Complex): (n: real)
    ensures 0.0 <= n
  {
    a.re * a.re + a.im * a.im
  }

  /** Magnitudes multiply: |a * b|^2 == |a|^2 * |b|^2. */
  lemma NormSqMul(a: Complex, b: Complex)
    ensures NormSq(Mul(a, b)) == NormSq(a) * NormSq(b)
  {
    var p, q, r, s := a.re, a.im, b.re, b.im;
    calc {
      NormSq(Mul(a, b));
      (p * r - q * s) * (p * r - q * s) + (p * s + q * r) * (p * s + q * r);
      p * p * r * r + q * q * s * s + p * p * s * s + q * q * r * r;
      (p * p + q * q) * (r * r + s * s);
    }
  }

  /** The real part of a point on the unit circle lies in [-1, 1]. */
  lemma UnitRealPart(a: Complex)
    requires NormSq(a) == 1.0
    ensures -1.0 <= a.re <= 1.0
  {
  }
}
