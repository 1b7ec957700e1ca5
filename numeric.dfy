/**
 * Real numbers stand for the source's `f64`.  The library functions the
 * source calls (`sqrt`, `tan`, `atan`, `cos`, `sin`, `powf`) are passed in as
 * a `Libm` value; the laws a proof needs are stated as predicates over it.
 */
module Numeric {
  /** `std::f64::consts::PI`. */
  const PI: real := 3.141592653589793
  /** The speed of light the source uses, `3e8`. */
  const C0: real := 300000000.0

  /** The angular frequency `2 pi f` of a frequency `f` in hertz. */
  function Angular(f: real): real
  {
    2.0 * PI * f
  }

  datatype Libm = Libm(
    sqrt: real -> real,
    tan: real -> real,
    atan: real -> real,
    /** `Complex::arg`, the angle of `(re, im)` */
    atan2: (real, real) -> real,
    cos: real -> real,
    sin: real -> real,
    /** `10f64.powf(x)` */
    pow10: real -> real)

  /** `x.sqrt()` where the source can show that `x` is not negative. */
  function Sqrt(m: Libm, x: real): real
    requires 0.0 <= x
  {
    m.sqrt(x)
  }

  /** The square root is the non-negative root. */
  ghost predicate SqrtLaw(m: Libm)
  {
    forall x :: 0.0 <= x ==> 0.0 <= m.sqrt(x) && m.sqrt(x) * m.sqrt(x) == x
  }

  /** tan 0 = 0. */
  predicate TanZero(m: Libm)
  {
    m.tan(0.0) == 0.0
  }

  lemma {:induction false} SqrtPositive(m: Libm, x: real)
    requires SqrtLaw(m) && 0.0 < x
    ensures 0.0 < m.sqrt(x)
  {
    assert 0.0 <= m.sqrt(x) && m.sqrt(x) * m.sqrt(x) == x;
  }

  /** For non-negative `a` and `b`, `a < b` exactly when `a^2 < b^2`. */
  lemma SquareMonotone(a: real, b: real)
    requires 0.0 <= a && 0.0 <= b
    ensures a < b <==> a * a < b * b
  {
    if a < b {
      MulNonneg(a, b - a);
      MulPos(b - a, b);
    } else {
      MulNonneg(b, a - b);
      MulNonneg(a - b, a);
    }
  }

  /** sqrt is monotone: a < sqrt(b) exactly when a * a < b, for a >= 0. */
  lemma {:induction false} SqrtCompare(m: Libm, a: real, b: real)
    requires SqrtLaw(m) && 0.0 <= a && 0.0 <= b
    ensures a < m.sqrt(b) <==> a * a < b
  {
    assert 0.0 <= m.sqrt(b) && m.sqrt(b) * m.sqrt(b) == b;
    SquareMonotone(a, m.sqrt(b));
  }

  lemma MulNonneg(a: real, b: real)
    requires 0.0 <= a && 0.0 <= b
    ensures 0.0 <= a * b
  {
  }

  lemma MulPos(a: real, b: real)
    requires 0.0 < a && 0.0 < b
    ensures 0.0 < a * b
  {
  }

  lemma SquareNonneg(a: real)
    ensures 0.0 <= a * a
  {
    if a < 0.0 { MulPos(-a, -a); }
  }

  lemma SquarePos(a: real)
    requires a != 0.0
    ensures 0.0 < a * a
  {
    if a < 0.0 { MulPos(-a, -a); } else { MulPos(a, a); }
  }

  lemma MulNonZero(a: real, b: real)
    requires a != 0.0 && b != 0.0
    ensures a * b != 0.0
  {
    if a < 0.0 {
      if b < 0.0 { MulPos(-a, -b); } else { MulPos(-a, b); }
    } else {
      if b < 0.0 { MulPos(a, -b); } else { MulPos(a, b); }
    }
  }

  lemma RecipMul(g: real)
    requires g != 0.0
    ensures (1.0 / g) * g == 1.0
  {
  }

  lemma DivMul(b: real, w: real)
    requires w != 0.0
    ensures (b / w) * w == b
  {
  }

  /**
   * An `f64` where the source relies on the IEEE values beyond the reals: a finite number,
   * NaN, or an infinity.
   */
  datatype Value = Num(v: real) | NaN | PosInf | NegInf
  {
    predicate IsFinite() { Num? }
    /** `x < 0.0` on an `f64`: false for NaN and +inf. */
    predicate IsNegative() { (Num? && v < 0.0) || NegInf? }
  }

  /** Complex numbers as pairs of reals (`num_complex::Complex<f64>`). */
  datatype Complex = Complex(re: real, im: real)

  const ZERO: Complex := Complex(0.0, 0.0)
  const ONE: Complex := Complex(1.0, 0.0)

  function Add(a: Complex, b: Complex): Complex { Complex(a.re + b.re, a.im + b.im) }
  function Sub(a: Complex, b: Complex): Complex { Complex(a.re - b.re, a.im - b.im) }
  function Mul(a: Complex, b: Complex): Complex
  {
    Complex(a.re * b.re - a.im * b.im, a.re * b.im + a.im * b.re)
  }
  function Scale(a: Complex, k: real): Complex { Complex(a.re * k, a.im * k) }
  function Norm2(a: Complex): real { a.re * a.re + a.im * a.im }
  predicate NonZero(a: Complex) { a.re != 0.0 || a.im != 0.0 }

  lemma Norm2Positive(a: Complex)
    ensures NonZero(a) <==> 0.0 < Norm2(a)
  {
    SquareNonneg(a.re);
    SquareNonneg(a.im);
    if a.re != 0.0 {
      SquarePos(a.re);
      calc { Norm2(a); == a.re * a.re + a.im * a.im; > 0.0; }
    } else if a.im != 0.0 {
      SquarePos(a.im);
      calc { Norm2(a); == a.re * a.re + a.im * a.im; > 0.0; }
    } else {
      calc { Norm2(a); == 0.0 * 0.0 + 0.0 * 0.0; == 0.0; }
    }
  }

  function Neg(a: Complex): Complex { Complex(-a.re, -a.im) }

  /** Multiplication by `j`. */
  function J(a: Complex): Complex { Complex(-a.im, a.re) }

  /** `z.inv()`: the complex reciprocal. */
  function Inv(a: Complex): (r: Complex)
    requires NonZero(a)
    ensures NonZero(r) && Mul(a, r) == ONE
  {
    Norm2Positive(a);
    var n := Norm2(a);
    var r := Complex(a.re / n, -a.im / n);
    assert a.re * (a.re / n) - a.im * (-a.im / n) == (a.re * a.re + a.im * a.im) / n;
    assert (a.re * a.re + a.im * a.im) / n == 1.0;
    assert a.re * (-a.im / n) + a.im * (a.re / n) == 0.0;
    assert a.re != 0.0 ==> r.re != 0.0;
    assert a.im != 0.0 ==> r.im != 0.0;
    r
  }

  /** `a / b` on complex numbers. */
  function Div(a: Complex, b: Complex): Complex
    requires NonZero(b)
  {
    Mul(a, Inv(b))
  }

  /** `a / k` for a real `k`. */
  function DivR(a: Complex, k: real): Complex
    requires k != 0.0
  {
    Complex(a.re / k, a.im / k)
  }

  lemma {:induction false} InvInv(a: Complex)
    requires NonZero(a)
    ensures Inv(Inv(a)) == a
  {
    var b := Inv(a);
    var n := Norm2(a);
    Norm2Positive(a);
    assert b == Complex(a.re / n, -a.im / n);
    assert Norm2(b) == 1.0 / n by {
      assert Norm2(b) == (a.re * a.re + a.im * a.im) / (n * n);
    }
    assert Inv(b) == Complex(b.re / Norm2(b), -b.im / Norm2(b));
  }

  /** `Complex::from_polar(r, theta)`. */
  function Polar(m: Libm, r: real, theta: real): Complex
  {
    Complex(r * m.cos(theta), r * m.sin(theta))
  }

  /** The real number `x` as a complex number. */
  function Real(x: real): Complex { Complex(x, 0.0) }

  /** `z.norm()`, the magnitude. */
  function Abs(m: Libm, z: Complex): real
  {
    SquareNonneg(z.re);
    SquareNonneg(z.im);
    Sqrt(m, Norm2(z))
  }

  /** A quotient is the unique solution of `b * x == a`. */
  lemma {:induction false} DivUnique(a: Complex, b: Complex, x: Complex)
    requires NonZero(b) && Mul(b, x) == a
    ensures Div(a, b) == x
  {
    var i := Inv(b);
    assert Mul(b, i) == ONE;
    calc {
      Div(a, b);
      == Mul(Mul(b, x), i);
      == { MulAssoc(b, x, i); MulComm(x, i); MulAssoc(b, i, x); }
         Mul(Mul(b, i), x);
      == Mul(ONE, x);
      == x;
    }
  }

  lemma MulAssoc(a: Complex, b: Complex, c: Complex)
    ensures Mul(Mul(a, b), c) == Mul(a, Mul(b, c))
  {
  }

  lemma MulComm(a: Complex, b: Complex)
    ensures Mul(a, b) == Mul(b, a)
  {
  }

  /** `b * (a / b) == a`. */
  lemma {:induction false} MulDiv(a: Complex, b: Complex)
    requires NonZero(b)
    ensures Mul(b, Div(a, b)) == a
  {
    var i := Inv(b);
    assert Mul(b, i) == ONE;
    calc {
      Mul(b, Div(a, b));
      == Mul(b, Mul(a, i));
      == { MulAssoc(b, a, i); MulComm(b, a); MulAssoc(a, b, i); }
         Mul(a, Mul(b, i));
      == a;
    }
  }
}
