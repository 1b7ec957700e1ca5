/**
 * What the distributed elements (`element/tline.rs`, `element/openstub.rs`,
 * `element/shortedstub.rs`) each compute the same way: the phase constant,
 * the electrical length, the fraction of it reached at sample `i`, and the
 * chart sweep of a stub, whose end may have an infinite susceptance.
 */
module Lines {
  import opened Numeric
  import opened Units
  import opened Frequencies

  /** `beta(f)`: `w sqrt(er) / 3e8`, the phase constant in radians per metre. */
  function Beta(lib: Libm, freq: Frequency, er: real): (b: real)
    reads freq
    requires Scalable(lib, freq.unit)
    ensures b * C0 == freq.W(lib) * lib.sqrt(er)
  {
    freq.W(lib) * lib.sqrt(er) / C0
  }

  /** `betal(f)`: the electrical length of `len` metres of line. */
  function BetaL(lib: Libm, freq: Frequency, er: real, len: real): real
    reads freq
    requires Scalable(lib, freq.unit)
  {
    Beta(lib, freq, er) * len
  }

  /** One wavelength of line is `2 pi` radians long. */
  lemma {:induction false} BetaWavelength(lib: Libm, freq: Frequency, er: real)
    requires Scalable(lib, freq.unit) && freq.Freq(lib) * lib.sqrt(er) != 0.0
    ensures Beta(lib, freq, er) * freq.Wavelength(lib, er) == 2.0 * PI
  {
    var f := freq.Freq(lib);
    var s := lib.sqrt(er);
    var b := Beta(lib, freq, er);
    assert b * C0 == (2.0 * PI * f) * s;
    assert (2.0 * PI * f) * s == 2.0 * PI * (f * s);
    PhaseTimesWavelength(b, freq.Wavelength(lib, er), f * s);
  }

  lemma {:induction false} PhaseTimesWavelength(b: real, wl: real, fs: real)
    requires b * C0 == 2.0 * PI * fs && wl * fs == C0
    ensures b * wl == 2.0 * PI
  {
    calc {
      (b * wl) * C0;
      == (b * C0) * wl;
      == (2.0 * PI) * (wl * fs);
      == (2.0 * PI) * C0;
    }
  }

  /** `x * i / npts`: the part of `x` a sweep has reached at sample `i` of `npts`. */
  function Fraction(x: real, npts: nat, i: nat): real
    requires npts > 0
  {
    x * (i as real) / (npts as real)
  }

  /** A sweep starts at none of `x` and ends at all of it. */
  lemma FractionEnds(x: real, npts: nat)
    requires npts > 0
    ensures Fraction(x, npts, 0) == 0.0 && Fraction(x, npts, npts) == x
  {
  }

  /** `1 / (j b) = -j / b`. */
  lemma {:induction false} InvImaginary(b: real)
    requires b != 0.0
    ensures Inv(Complex(0.0, b)) == Complex(0.0, -1.0 / b)
  {
    var z := Complex(0.0, b);
    assert Norm2(z) == b * b;
    assert -b / (b * b) == -1.0 / b;
  }

  /**
   * What a stub's `calc_arc` returns: the samples, the start point, and the
   * end point, whose imaginary part is infinite where the stub's tangent or
   * characteristic impedance is zero.
   */
  datatype StubArc = StubArc(gx: seq<real>, gy: seq<real>, start: Complex, endRe: real, endIm: Value)
}
