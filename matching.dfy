/**
 * `matching.rs`: the two commands of the matching tool.
 *
 * `calc_networks` reads the source and load ports in one of five forms
 * (impedance, admittance, reflection coefficient as magnitude/angle or as
 * real/imaginary, parallel RC), halves them for a differential port, and
 * runs every solver of the files under `matching/` on them, each result going into
 * one field of a default-initialised record.
 *
 * `change_impedance` converts a pair of ports from one of those forms to
 * another.  Each of the twenty conversions is written out in the source;
 * apart from the reading of a reflection coefficient given as magnitude
 * and angle (see `ReadGamma`), each one is the reading of the input as an
 * impedance (`Decode`) followed by the writing of that impedance in the
 * output form (`Encode`).
 */
module Matching {
  import opened Wrappers
  import opened Numeric
  import opened Units
  import opened Networks
  import R = RfUtils
  import E = Ells
  import EQ = EllsWithQ
  import HP = HighPass
  import LP = LowPass
  import BP = BandPass
  import T = Tees
  import P = Pis
  import PT = PiTees

  const UNKNOWN_IMPEDANCE: string := "Impedance type not recognized"
  const UNKNOWN_UNITS: string := "impedance unit(s) not recognized"

  /** The port forms: impedance, admittance, Γ as magnitude/angle, Γ as real/imaginary, parallel RC. */
  datatype Form = Zri | Yri | Gma | Gri | Rc

  function FormName(f: Form): string
  {
    match f
    case Zri => "zri"
    case Yri => "yri"
    case Gma => "gma"
    case Gri => "gri"
    case Rc => "rc"
  }

  /** The selectors `change_impedance` matches on; any other is an error. */
  function FormFromStr(s: string): (r: Result<Form>)
    ensures r.Ok? <==> s in {"zri", "yri", "gma", "gri", "rc"}
    ensures r.Ok? ==> FormName(r.value) == s
    ensures r.Err? ==> r.error == UNKNOWN_UNITS
  {
    match s
    case "zri" => Ok(Zri)
    case "yri" => Ok(Yri)
    case "gma" => Ok(Gma)
    case "gri" => Ok(Gri)
    case "rc" => Ok(Rc)
    case _ => Err(UNKNOWN_UNITS)
  }

  /** `Complex::from_polar(mag, ang * PI / 180)`: a magnitude and an angle in degrees. */
  function PolarDeg(m: Libm, x: Complex): Complex
  {
    Polar(m, x.re, x.im * PI / 180.0)
  }

  /** `(g.norm(), g.arg() * 180 / PI)`: magnitude and angle in degrees. */
  function MagAng(m: Libm, g: Complex): Complex
  {
    Complex(Abs(m, g), m.atan2(g.im, g.re) * 180.0 / PI)
  }

  /** `from_polar(norm, arg)` gives the number back. */
  ghost predicate PolarLaw(m: Libm)
  {
    forall g: Complex :: Polar(m, Abs(m, g), m.atan2(g.im, g.re)) == g
  }

  /** Under the polar law, reading a magnitude/angle pair back as polar gives the number. */
  lemma PolarOfMagAng(m: Libm, g: Complex)
    requires PolarLaw(m)
    ensures PolarDeg(m, MagAng(m, g)) == g
  {
    var a := m.atan2(g.im, g.re);
    assert a * 180.0 / PI * PI / 180.0 == a;
    assert Polar(m, Abs(m, g), a) == g;
  }

  /**
   * How a `gma` input is read: as polar (magnitude, degrees) when `polar`,
   * else as the rectangular `re + j im`, which is how `gma -> zri` and
   * `gma -> rc` read it.
   */
  function ReadGamma(m: Libm, x: Complex, polar: bool): Complex
  {
    if polar then PolarDeg(m, x) else x
  }

  /** The admittance `1/r + j c w` of a parallel RC, with `c` and `f` unscaled. */
  function RcAdmittance(m: Libm, x: Complex, freq: real, fu: R.Unit, cu: R.Unit): (y: Complex)
    requires x.re != 0.0 && R.Scalable(m, fu) && R.Scalable(m, cu)
    ensures NonZero(y)
  {
    R.RecipRecip(x.re);
    Complex(1.0 / x.re, R.UnscaleVal(m, x.im, cu) * 2.0 * PI * R.UnscaleVal(m, freq, fu))
  }

  /** The `(r, c)` pair of `calc_rc` as a port value. */
  function RcPair(rc: (real, real)): Complex
  {
    Complex(rc.0, rc.1)
  }

  /** The divisions reading `x` as an impedance performs are by non-zero values. */
  predicate DecodeDefined(m: Libm, f: Form, x: Complex, z0: real, freq: real, fu: R.Unit, cu: R.Unit)
  {
    match f
    case Zri => true
    case Yri => NonZero(x)
    case Gma => NonZero(Sub(ONE, PolarDeg(m, x)))
    case Gri => NonZero(Sub(ONE, x))
    case Rc => x.re != 0.0 && R.Scalable(m, fu) && R.Scalable(m, cu)
  }

  /** The impedance a port value in form `f` describes, with `gma` read as polar. */
  function Decode(m: Libm, f: Form, x: Complex, z0: real, freq: real, fu: R.Unit, cu: R.Unit): Complex
    requires DecodeDefined(m, f, x, z0, freq, fu, cu)
  {
    match f
    case Zri => x
    case Yri => Inv(x)
    case Gma => R.CalcZ(PolarDeg(m, x), z0)
    case Gri => R.CalcZ(x, z0)
    case Rc => Inv(RcAdmittance(m, x, freq, fu, cu))
  }

  /** The divisions writing `z` in form `g` performs are by non-zero values. */
  predicate EncodeDefined(m: Libm, g: Form, z: Complex, z0: real, freq: real, fu: R.Unit, cu: R.Unit)
  {
    match g
    case Zri => true
    case Yri => NonZero(z)
    case Gma => NonZero(Add(z, Real(z0)))
    case Gri => NonZero(Add(z, Real(z0)))
    case Rc => R.RcDefined(m, z, freq, fu, R.Base, cu)
  }

  /** The impedance `z` written in form `g`. */
  function Encode(m: Libm, g: Form, z: Complex, z0: real, freq: real, fu: R.Unit, cu: R.Unit): Complex
    requires EncodeDefined(m, g, z, z0, freq, fu, cu)
  {
    match g
    case Zri => z
    case Yri => Inv(z)
    case Gma => MagAng(m, R.CalcGamma(z, z0))
    case Gri => R.CalcGamma(z, z0)
    case Rc => RcPair(R.CalcRc(m, z, freq, fu, R.Base, cu))
  }

  /** The divisions of one port's conversion from `f` to `g` are by non-zero values. */
  predicate ConvertDefined(m: Libm, f: Form, g: Form, x: Complex, z0: real, freq: real, fu: R.Unit, cu: R.Unit,
                           polar: bool)
  {
    match f
    case Zri =>
      (match g
       case Zri => true
       case Yri => NonZero(x)
       case Gma => NonZero(Add(x, Real(z0)))
       case Gri => NonZero(Add(x, Real(z0)))
       case Rc => R.RcDefined(m, x, freq, fu, R.Base, cu))
    case Yri =>
      (match g
       case Zri => NonZero(x)
       case Yri => true
       case Gma => NonZero(x) && NonZero(Add(Inv(x), Real(z0)))
       case Gri => NonZero(x) && NonZero(Add(Inv(x), Real(z0)))
       case Rc => NonZero(x) && R.RcDefined(m, Inv(x), freq, fu, R.Base, cu))
    case Gma =>
      (match g
       case Zri => NonZero(Sub(ONE, ReadGamma(m, x, polar)))
       case Yri => NonZero(Sub(ONE, PolarDeg(m, x))) && NonZero(R.CalcZ(PolarDeg(m, x), z0))
       case Gma => true
       case Gri => true
       case Rc =>
         NonZero(Sub(ONE, ReadGamma(m, x, polar)))
         && R.RcDefined(m, R.CalcZ(ReadGamma(m, x, polar), z0), freq, fu, R.Base, cu))
    case Gri =>
      (match g
       case Zri => NonZero(Sub(ONE, x))
       case Yri => NonZero(Sub(ONE, x)) && NonZero(R.CalcZ(x, z0))
       case Gma => true
       case Gri => true
       case Rc => NonZero(Sub(ONE, x)) && R.RcDefined(m, R.CalcZ(x, z0), freq, fu, R.Base, cu))
    case Rc =>
      (match g
       case Zri => x.re != 0.0 && R.Scalable(m, fu) && R.Scalable(m, cu)
       case Yri => x.re != 0.0 && R.Scalable(m, fu) && R.Scalable(m, cu)
       case Gma =>
         x.re != 0.0 && R.Scalable(m, fu) && R.Scalable(m, cu)
         && NonZero(Add(Inv(RcAdmittance(m, x, freq, fu, cu)), Real(z0)))
       case Gri =>
         x.re != 0.0 && R.Scalable(m, fu) && R.Scalable(m, cu)
         && NonZero(Add(Inv(RcAdmittance(m, x, freq, fu, cu)), Real(z0)))
       case Rc => true)
  }

  /**
   * One port of `change_impedance`, conversion by conversion as the
   * source writes them; `f == g` is the identity the command returns
   * before it converts anything.
   */
  function ConvertPort(m: Libm, f: Form, g: Form, x: Complex, z0: real, freq: real, fu: R.Unit, cu: R.Unit,
                       polar: bool): (r: Complex)
    requires ConvertDefined(m, f, g, x, z0, freq, fu, cu, polar)
    ensures f == g ==> r == x
  {
    match f
    case Zri =>
      (match g
       case Zri => x
       case Yri => Inv(x)
       case Gma => MagAng(m, R.CalcGamma(x, z0))
       case Gri => R.CalcGamma(x, z0)
       case Rc => RcPair(R.CalcRc(m, x, freq, fu, R.Base, cu)))
    case Yri =>
      (match g
       case Zri => Inv(x)
       case Yri => x
       case Gma => MagAng(m, R.CalcGamma(Inv(x), z0))
       case Gri => R.CalcGamma(Inv(x), z0)
       case Rc => RcPair(R.CalcRc(m, Inv(x), freq, fu, R.Base, cu)))
    case Gma =>
      (match g
       case Zri => R.CalcZ(ReadGamma(m, x, polar), z0)
       case Yri => Inv(R.CalcZ(PolarDeg(m, x), z0))
       case Gma => x
       case Gri => PolarDeg(m, x)
       case Rc => RcPair(R.CalcRc(m, R.CalcZ(ReadGamma(m, x, polar), z0), freq, fu, R.Base, cu)))
    case Gri =>
      (match g
       case Zri => R.CalcZ(x, z0)
       case Yri => Inv(R.CalcZ(x, z0))
       case Gma => MagAng(m, x)
       case Gri => x
       case Rc => RcPair(R.CalcRc(m, R.CalcZ(x, z0), freq, fu, R.Base, cu)))
    case Rc =>
      (match g
       case Zri => Inv(RcAdmittance(m, x, freq, fu, cu))
       case Yri => RcAdmittance(m, x, freq, fu, cu)
       case Gma => MagAng(m, R.CalcGamma(Inv(RcAdmittance(m, x, freq, fu, cu)), z0))
       case Gri => R.CalcGamma(Inv(RcAdmittance(m, x, freq, fu, cu)), z0)
       case Rc => x)
  }

  /** `Complex2Return`: the converted source and load ports. */
  datatype Ports = Ports(src: Complex, load: Complex)

  /** Both ports' conversions divide by non-zero values, when the command converts at all. */
  predicate ChangeDefined(m: Libm, rs: real, xs: real, rl: real, xl: real, impIn: string, impOut: string,
                          z0: real, freq: real, fScale: string, cScale: string, polar: bool)
  {
    impIn == impOut || FormFromStr(impIn).Err? || FormFromStr(impOut).Err? ||
    (var f, g := FormFromStr(impIn).value, FormFromStr(impOut).value;
     var fu, cu := R.UnitFromStr(fScale).value, R.UnitFromStr(cScale).value;
     ConvertDefined(m, f, g, Complex(rs, xs), z0, freq, fu, cu, polar)
     && ConvertDefined(m, f, g, Complex(rl, xl), z0, freq, fu, cu, polar))
  }

  /**
   * `change_impedance`, with `gma` read as `ReadGamma(polar)` in the two
   * conversions that read it rectangularly in the source.  Same selectors
   * return the inputs; an unknown selector is an error.
   */
  function ChangeImpedanceWith(m: Libm, rs: real, xs: real, rl: real, xl: real, impIn: string, impOut: string,
                               z0: real, freq: real, fScale: string, cScale: string, polar: bool): (r: Result<Ports>)
    requires ChangeDefined(m, rs, xs, rl, xl, impIn, impOut, z0, freq, fScale, cScale, polar)
    ensures impIn == impOut ==> r == Ok(Ports(Complex(rs, xs), Complex(rl, xl)))
    ensures r.Err? <==> impIn != impOut && (impIn !in {"zri", "yri", "gma", "gri", "rc"}
                                            || impOut !in {"zri", "yri", "gma", "gri", "rc"})
    ensures r.Err? ==> r.error == UNKNOWN_UNITS
  {
    if impIn == impOut then Ok(Ports(Complex(rs, xs), Complex(rl, xl)))
    else if FormFromStr(impIn).Err? || FormFromStr(impOut).Err? then Err(UNKNOWN_UNITS)
    else
      var f, g := FormFromStr(impIn).value, FormFromStr(impOut).value;
      var fu, cu := R.UnitFromStr(fScale).value, R.UnitFromStr(cScale).value;
      Ok(Ports(ConvertPort(m, f, g, Complex(rs, xs), z0, freq, fu, cu, polar),
               ConvertPort(m, f, g, Complex(rl, xl), z0, freq, fu, cu, polar)))
  }

  /** `change_impedance` as written: `gma -> zri` and `gma -> rc` read Γ as `re + j im`. */
  function ChangeImpedanceAsWritten(m: Libm, rs: real, xs: real, rl: real, xl: real, impIn: string, impOut: string,
                                    z0: real, freq: real, fScale: string, cScale: string): Result<Ports>
    requires ChangeDefined(m, rs, xs, rl, xl, impIn, impOut, z0, freq, fScale, cScale, false)
  {
    ChangeImpedanceWith(m, rs, xs, rl, xl, impIn, impOut, z0, freq, fScale, cScale, false)
  }

  /** `change_impedance` as intended: every `gma` input is a magnitude and an angle in degrees. */
  function ChangeImpedance(m: Libm, rs: real, xs: real, rl: real, xl: real, impIn: string, impOut: string,
                           z0: real, freq: real, fScale: string, cScale: string): Result<Ports>
    requires ChangeDefined(m, rs, xs, rl, xl, impIn, impOut, z0, freq, fScale, cScale, true)
  {
    ChangeImpedanceWith(m, rs, xs, rl, xl, impIn, impOut, z0, freq, fScale, cScale, true)
  }

  /**
   * With `gma` read as polar, every conversion between two different forms
   * reads the input as an impedance and writes that impedance in the
   * output form; the three that take a shortcut (`gma -> gri`,
   * `gri -> gma`, `rc -> yri`) agree with the detour.
   */
  lemma {:induction false} ConvertPortViaImpedance(m: Libm, f: Form, g: Form, x: Complex, z0: real, freq: real,
                                                   fu: R.Unit, cu: R.Unit)
    requires f != g && z0 != 0.0
    requires DecodeDefined(m, f, x, z0, freq, fu, cu)
    requires EncodeDefined(m, g, Decode(m, f, x, z0, freq, fu, cu), z0, freq, fu, cu)
    ensures ConvertDefined(m, f, g, x, z0, freq, fu, cu, true)
    ensures ConvertPort(m, f, g, x, z0, freq, fu, cu, true)
         == Encode(m, g, Decode(m, f, x, z0, freq, fu, cu), z0, freq, fu, cu)
  {
    match f
    case Zri => ConvertFromZri(m, g, x, z0, freq, fu, cu);
    case Yri => ConvertFromYri(m, g, x, z0, freq, fu, cu);
    case Gma => ConvertFromGma(m, g, x, z0, freq, fu, cu);
    case Gri => ConvertFromGri(m, g, x, z0, freq, fu, cu);
    case Rc => ConvertFromRc(m, g, x, z0, freq, fu, cu);
  }

  lemma ConvertFromZri(m: Libm, g: Form, x: Complex, z0: real, freq: real, fu: R.Unit, cu: R.Unit)
    requires Zri != g && z0 != 0.0
    requires DecodeDefined(m, Zri, x, z0, freq, fu, cu)
    requires EncodeDefined(m, g, Decode(m, Zri, x, z0, freq, fu, cu), z0, freq, fu, cu)
    ensures ConvertDefined(m, Zri, g, x, z0, freq, fu, cu, true)
    ensures ConvertPort(m, Zri, g, x, z0, freq, fu, cu, true)
         == Encode(m, g, Decode(m, Zri, x, z0, freq, fu, cu), z0, freq, fu, cu)
  {
  }

  lemma ConvertFromYri(m: Libm, g: Form, x: Complex, z0: real, freq: real, fu: R.Unit, cu: R.Unit)
    requires Yri != g && z0 != 0.0
    requires DecodeDefined(m, Yri, x, z0, freq, fu, cu)
    requires EncodeDefined(m, g, Decode(m, Yri, x, z0, freq, fu, cu), z0, freq, fu, cu)
    ensures ConvertDefined(m, Yri, g, x, z0, freq, fu, cu, true)
    ensures ConvertPort(m, Yri, g, x, z0, freq, fu, cu, true)
         == Encode(m, g, Decode(m, Yri, x, z0, freq, fu, cu), z0, freq, fu, cu)
  {
  }

  lemma ConvertFromGma(m: Libm, g: Form, x: Complex, z0: real, freq: real, fu: R.Unit, cu: R.Unit)
    requires Gma != g && z0 != 0.0
    requires DecodeDefined(m, Gma, x, z0, freq, fu, cu)
    requires EncodeDefined(m, g, Decode(m, Gma, x, z0, freq, fu, cu), z0, freq, fu, cu)
    ensures ConvertDefined(m, Gma, g, x, z0, freq, fu, cu, true)
    ensures ConvertPort(m, Gma, g, x, z0, freq, fu, cu, true)
         == Encode(m, g, Decode(m, Gma, x, z0, freq, fu, cu), z0, freq, fu, cu)
  {
    if g == Gri {
      R.GammaOfZ(PolarDeg(m, x), z0);
    }
  }

  lemma ConvertFromGri(m: Libm, g: Form, x: Complex, z0: real, freq: real, fu: R.Unit, cu: R.Unit)
    requires Gri != g && z0 != 0.0
    requires DecodeDefined(m, Gri, x, z0, freq, fu, cu)
    requires EncodeDefined(m, g, Decode(m, Gri, x, z0, freq, fu, cu), z0, freq, fu, cu)
    ensures ConvertDefined(m, Gri, g, x, z0, freq, fu, cu, true)
    ensures ConvertPort(m, Gri, g, x, z0, freq, fu, cu, true)
         == Encode(m, g, Decode(m, Gri, x, z0, freq, fu, cu), z0, freq, fu, cu)
  {
    if g == Gma {
      R.GammaOfZ(x, z0);
    }
  }

  lemma ConvertFromRc(m: Libm, g: Form, x: Complex, z0: real, freq: real, fu: R.Unit, cu: R.Unit)
    requires Rc != g && z0 != 0.0
    requires DecodeDefined(m, Rc, x, z0, freq, fu, cu)
    requires EncodeDefined(m, g, Decode(m, Rc, x, z0, freq, fu, cu), z0, freq, fu, cu)
    ensures ConvertDefined(m, Rc, g, x, z0, freq, fu, cu, true)
    ensures ConvertPort(m, Rc, g, x, z0, freq, fu, cu, true)
         == Encode(m, g, Decode(m, Rc, x, z0, freq, fu, cu), z0, freq, fu, cu)
  {
    if g == Yri {
      InvInv(RcAdmittance(m, x, freq, fu, cu));
    }
  }

  /**
   * Writing an impedance in any form and reading it back gives the
   * impedance (for `gma` where `from_polar` inverts `norm`/`arg`).
   */
  lemma {:induction false} ImpedanceRoundTrip(m: Libm, g: Form, z: Complex, z0: real, freq: real,
                                              fu: R.Unit, cu: R.Unit)
    requires z0 != 0.0 && EncodeDefined(m, g, z, z0, freq, fu, cu)
    requires g == Gma ==> PolarLaw(m)
    ensures DecodeDefined(m, g, Encode(m, g, z, z0, freq, fu, cu), z0, freq, fu, cu)
    ensures Decode(m, g, Encode(m, g, z, z0, freq, fu, cu), z0, freq, fu, cu) == z
  {
    match g
    case Zri =>
    case Yri => InvInv(z);
    case Gri => R.ZOfGamma(z, z0);
    case Gma =>
      PolarOfMagAng(m, R.CalcGamma(z, z0));
      R.ZOfGamma(z, z0);
    case Rc =>
      RcReadBack(m, z, freq, fu, cu);
  }

  /** The RC pair `calc_rc` reports is the parallel RC of the impedance. */
  lemma {:induction false} RcReadBack(m: Libm, z: Complex, freq: real, fu: R.Unit, cu: R.Unit)
    requires R.RcDefined(m, z, freq, fu, R.Base, cu)
    ensures DecodeDefined(m, Rc, RcPair(R.CalcRc(m, z, freq, fu, R.Base, cu)), 0.0, freq, fu, cu)
    ensures Inv(RcAdmittance(m, RcPair(R.CalcRc(m, z, freq, fu, R.Base, cu)), freq, fu, cu)) == z
  {
    var y := Inv(z);
    assert R.CalcRc(m, z, freq, fu, R.Base, cu) == R.RcOfAdmittance(m, y, freq, fu, R.Base, cu);
    AdmittanceReadBack(m, y, freq, fu, cu);
    InvInv(z);
  }

  /** The admittance of the RC pair read off `y` is `y`. */
  lemma {:induction false} AdmittanceReadBack(m: Libm, y: Complex, freq: real, fu: R.Unit, cu: R.Unit)
    requires R.Scalable(m, fu) && R.Scalable(m, cu) && y.re != 0.0 && R.UnscaleVal(m, freq, fu) != 0.0
    ensures R.RcOfAdmittance(m, y, freq, fu, R.Base, cu).0 != 0.0
    ensures RcAdmittance(m, RcPair(R.RcOfAdmittance(m, y, freq, fu, R.Base, cu)), freq, fu, cu) == y
  {
    PairAdmittance(m, R.RcOfAdmittance(m, y, freq, fu, R.Base, cu), y, freq, fu, cu);
  }

  /** A pair whose resistance is the reciprocal of `y.re` and whose susceptance `c w` is `y.im` has admittance `y`. */
  lemma PairAdmittance(m: Libm, rc: (real, real), y: Complex, freq: real, fu: R.Unit, cu: R.Unit)
    requires R.Scalable(m, fu) && R.Scalable(m, cu) && rc.0 * R.ScaleVal(m, y.re, R.Base) == 1.0
    requires R.ReadsSusceptance(m, rc.1, freq, fu, cu, y.im)
    ensures rc.0 != 0.0 && RcAdmittance(m, RcPair(rc), freq, fu, cu) == y
  {
    assert R.ScaleVal(m, y.re, R.Base) == y.re by {
      assert R.UnitScale(m, R.Base) == 1.0;
    }
    RecipOfProduct(rc.0, y.re);
    Regroup(R.UnscaleVal(m, rc.1, cu), R.UnscaleVal(m, freq, fu), y.im);
  }

  lemma Regroup(u: real, uf: real, t: real)
    requires u * (2.0 * PI * uf) == t
    ensures u * 2.0 * PI * uf == t
  {
  }

  lemma RecipOfProduct(a: real, b: real)
    requires a * b == 1.0
    ensures a != 0.0 && 1.0 / a == b
  {
  }

  /**
   * Converting a pair of impedances to any form and back to `zri` returns
   * them, when `gma` is read as polar in both directions.
   */
  lemma {:induction false} ChangeImpedanceRoundTrip(m: Libm, rs: real, xs: real, rl: real, xl: real, impOut: string,
                                                    z0: real, freq: real, fScale: string, cScale: string)
    requires impOut in {"zri", "yri", "gma", "gri", "rc"} && z0 != 0.0
    requires impOut == "gma" ==> PolarLaw(m)
    requires ChangeDefined(m, rs, xs, rl, xl, "zri", impOut, z0, freq, fScale, cScale, true)
    ensures var p := ChangeImpedance(m, rs, xs, rl, xl, "zri", impOut, z0, freq, fScale, cScale);
      p.Ok?
      && ChangeDefined(m, p.value.src.re, p.value.src.im, p.value.load.re, p.value.load.im, impOut, "zri",
                       z0, freq, fScale, cScale, true)
      && ChangeImpedance(m, p.value.src.re, p.value.src.im, p.value.load.re, p.value.load.im, impOut, "zri",
                         z0, freq, fScale, cScale)
         == Ok(Ports(Complex(rs, xs), Complex(rl, xl)))
  {
    if impOut != "zri" {
      var g := FormFromStr(impOut).value;
      var fu, cu := R.UnitFromStr(fScale).value, R.UnitFromStr(cScale).value;
      PortRoundTrip(m, g, Complex(rs, xs), z0, freq, fu, cu);
      PortRoundTrip(m, g, Complex(rl, xl), z0, freq, fu, cu);
    }
  }

  /** One port of `ChangeImpedanceRoundTrip`. */
  lemma {:induction false} PortRoundTrip(m: Libm, g: Form, z: Complex, z0: real, freq: real, fu: R.Unit, cu: R.Unit)
    requires g != Zri && z0 != 0.0 && (g == Gma ==> PolarLaw(m))
    requires ConvertDefined(m, Zri, g, z, z0, freq, fu, cu, true)
    ensures var e := ConvertPort(m, Zri, g, z, z0, freq, fu, cu, true);
      ConvertDefined(m, g, Zri, e, z0, freq, fu, cu, true) && ConvertPort(m, g, Zri, e, z0, freq, fu, cu, true) == z
  {
    ConvertPortViaImpedance(m, Zri, g, z, z0, freq, fu, cu);
    var e := Encode(m, g, z, z0, freq, fu, cu);
    ImpedanceRoundTrip(m, g, z, z0, freq, fu, cu);
    ConvertPortViaImpedance(m, g, Zri, e, z0, freq, fu, cu);
  }

  /**
   * As written, an impedance whose Γ has a negative real part does not
   * survive `zri -> gma -> zri`: the magnitude comes back as a real part.
   */
  lemma {:induction false} GammaRoundTripAsWrittenFails(m: Libm, z: Complex, z0: real, freq: real,
                                                        fu: R.Unit, cu: R.Unit)
    requires SqrtLaw(m) && z0 != 0.0 && NonZero(Add(z, Real(z0))) && R.CalcGamma(z, z0).re < 0.0
    requires ConvertDefined(m, Gma, Zri, ConvertPort(m, Zri, Gma, z, z0, freq, fu, cu, false), z0, freq, fu, cu, false)
    ensures ConvertPort(m, Gma, Zri, ConvertPort(m, Zri, Gma, z, z0, freq, fu, cu, false), z0, freq, fu, cu, false) != z
  {
    var g := R.CalcGamma(z, z0);
    var e := MagAng(m, g);
    SquareNonneg(g.re);
    SquareNonneg(g.im);
    assert 0.0 <= e.re;
    R.GammaOfZ(e, z0);
  }

  /**
   * As written, no resistance below `z0` survives `zri -> gma -> zri`: its
   * Γ is a negative real, whose magnitude comes back as a positive real part.
   */
  lemma {:induction false} ResistiveRoundTripAsWritten(m: Libm, r: real, z0: real, freq: real,
                                                       fScale: string, cScale: string)
    requires SqrtLaw(m) && 0.0 < r < z0
    ensures var p := ChangeImpedanceAsWritten(m, r, 0.0, r, 0.0, "zri", "gma", z0, freq, fScale, cScale);
      p.Ok?
      && ChangeDefined(m, p.value.src.re, p.value.src.im, p.value.load.re, p.value.load.im, "gma", "zri",
                       z0, freq, fScale, cScale, false)
      && ChangeImpedanceAsWritten(m, p.value.src.re, p.value.src.im, p.value.load.re, p.value.load.im, "gma", "zri",
                                  z0, freq, fScale, cScale)
         != Ok(Ports(Complex(r, 0.0), Complex(r, 0.0)))
  {
    var fu, cu := R.UnitFromStr(fScale).value, R.UnitFromStr(cScale).value;
    var z := Complex(r, 0.0);
    var k := ResistiveGamma(r, z0);
    NegativeRealMagnitude(m, k);
    var e := ConvertPort(m, Zri, Gma, z, z0, freq, fu, cu, false);
    assert e.re == -k;
    GammaRoundTripAsWrittenFails(m, z, z0, freq, fu, cu);
  }

  /** The reflection coefficient of a resistance `0 < r < z0`: a real in `(-1, 0)`. */
  lemma {:induction false} ResistiveGamma(r: real, z0: real) returns (k: real)
    requires 0.0 < r < z0
    ensures NonZero(Add(Real(r), Real(z0))) && R.CalcGamma(Real(r), z0) == Real(k)
    ensures -1.0 < k < 0.0
  {
    var g := R.CalcGamma(Real(r), z0);
    assert Add(Real(r), Real(z0)) == Real(r + z0);
    assert Sub(Real(r), Real(z0)) == Real(r - z0);
    RealQuotient(r + z0, g, r - z0);
    k := (r - z0) / (r + z0);
    assert k * (r + z0) == r - z0;
    if k >= 0.0 {
      MulNonneg(k, r + z0);
    }
    if k <= -1.0 {
      MulNonneg(-1.0 - k, r + z0);
    }
  }

  /** `a g == s` with real `a != 0` and `s`: `g` is the real `s / a`. */
  lemma RealQuotient(a: real, g: Complex, s: real)
    requires a != 0.0 && Mul(Real(a), g) == Real(s)
    ensures g == Real(s / a)
  {
    assert a * g.im == 0.0;
    assert a * g.re == s;
  }

  /** The magnitude of a negative real is its negation. */
  lemma NegativeRealMagnitude(m: Libm, k: real)
    requires SqrtLaw(m) && k < 0.0
    ensures Abs(m, Real(k)) == -k
  {
    var n := Norm2(Real(k));
    assert Abs(m, Real(k)) == m.sqrt(n);
    var a := -k;
    PT.SqrtOfSquare(m, a);
    assert m.sqrt(a * a) == a;
    assert n == a * a;
  }

  // ---------------------------------------------------------------- calc_networks

  /** The divisions reading a port in the form `imp` performs, at angular frequency `w`. */
  predicate SelectorDefined(m: Libm, imp: string, x: Complex, z0: real, cu: Unit)
  {
    match imp
    case "yri" => NonZero(x)
    case "gma" => NonZero(Sub(ONE, PolarDeg(m, x)))
    case "gri" => NonZero(Sub(ONE, x))
    case "rc" => x.re != 0.0 && Scalable(m, cu)
    case _ => true
  }

  /** A port of `calc_networks` read as an impedance; `rc` has `c` in `cu` at angular frequency `w`. */
  function SelectedImpedance(m: Libm, imp: string, x: Complex, z0: real, w: real, cu: Unit): Complex
    requires imp in {"zri", "yri", "gma", "gri", "rc"} && SelectorDefined(m, imp, x, z0, cu)
  {
    match imp
    case "zri" => x
    case "yri" => Inv(x)
    case "gma" => R.CalcZ(PolarDeg(m, x), z0)
    case "gri" => R.CalcZ(x, z0)
    case "rc" =>
      R.RecipRecip(x.re);
      Inv(Complex(1.0 / x.re, UnscaleVal(m, x.im, cu) * w))
  }

  /**
   * The ports `calc_networks` solves for: read in the form `imp`, then
   * halved for a differential (`diff`) port or kept for a single-ended
   * (`se`) one.  Any other `imp` or `z_scale` is an error.
   */
  function NetworkPorts(m: Libm, rs: real, xs: real, rl: real, xl: real, imp: string, zScale: string,
                        z0: real, w: real, cu: Unit): (r: Result<(Complex, Complex)>)
    requires SelectorDefined(m, imp, Complex(rs, xs), z0, cu) && SelectorDefined(m, imp, Complex(rl, xl), z0, cu)
    ensures r.Err? <==> imp !in {"zri", "yri", "gma", "gri", "rc"} || zScale !in {"diff", "se"}
    ensures r.Err? ==> r.error == UNKNOWN_IMPEDANCE
    ensures imp == "zri" && zScale == "se" ==> r == Ok((Complex(rs, xs), Complex(rl, xl)))
  {
    if imp !in {"zri", "yri", "gma", "gri", "rc"} || zScale !in {"diff", "se"} then Err(UNKNOWN_IMPEDANCE)
    else
      var zs := SelectedImpedance(m, imp, Complex(rs, xs), z0, w, cu);
      var zl := SelectedImpedance(m, imp, Complex(rl, xl), z0, w, cu);
      if zScale == "diff" then Ok((DivR(zs, 2.0), DivR(zl, 2.0))) else Ok((zs, zl))
  }

  /** A differential port is half the single-ended port read from the same numbers. */
  lemma {:induction false} DiffIsHalfSe(m: Libm, rs: real, xs: real, rl: real, xl: real, imp: string,
                                        z0: real, w: real, cu: Unit)
    requires imp in {"zri", "yri", "gma", "gri", "rc"}
    requires SelectorDefined(m, imp, Complex(rs, xs), z0, cu) && SelectorDefined(m, imp, Complex(rl, xl), z0, cu)
    ensures var d := NetworkPorts(m, rs, xs, rl, xl, imp, "diff", z0, w, cu);
            var s := NetworkPorts(m, rs, xs, rl, xl, imp, "se", z0, w, cu);
      d.Ok? && s.Ok? && Scale(d.value.0, 2.0) == s.value.0 && Scale(d.value.1, 2.0) == s.value.1
  {
  }

  /**
   * `calc_networks` reads a port in the forms `yri`, `gma` and `gri` as the
   * impedance `change_impedance` converts it to, with `gma` read as polar.
   */
  lemma {:induction false} PortsAgreeWithChangeImpedance(m: Libm, rs: real, xs: real, rl: real, xl: real, imp: string,
                                                         z0: real, w: real, freq: real, fScale: string, cScale: string)
    requires imp in {"yri", "gma", "gri"}
    requires SelectorDefined(m, imp, Complex(rs, xs), z0, UnitFromStr(cScale).value)
    requires SelectorDefined(m, imp, Complex(rl, xl), z0, UnitFromStr(cScale).value)
    ensures ChangeDefined(m, rs, xs, rl, xl, imp, "zri", z0, freq, fScale, cScale, true)
    ensures var c := ChangeImpedance(m, rs, xs, rl, xl, imp, "zri", z0, freq, fScale, cScale);
      NetworkPorts(m, rs, xs, rl, xl, imp, "se", z0, w, UnitFromStr(cScale).value) == Ok((c.value.src, c.value.load))
  {
  }

  /** `MatchingReturn`: the ports solved for and every solver's result. */
  datatype MatchingReturn = MatchingReturn(
    zs: Complex, zl: Complex,
    hp1: CCLL, hp2: CCLL, lp1: CCLL, lp2: CCLL, bp1: CCLL, bp2: CCLL, bp3: CCLL, bp4: CCLL,
    pi: PiTee, tee: PiTee,
    hpEllCl: CL, hpEllClWQ: CLQ, hpEllLc: CL, hpEllLcWQ: CLQ,
    lpEllCl: CL, lpEllClWQ: CLQ, lpEllLc: CL, lpEllLcWQ: CLQ)

  /** `MatchingReturn::default()`: zeros and empty labels. */
  function DefaultReturn(): MatchingReturn
  {
    var z := Num(0.0);
    var ccll := CCLL(z, z, z, z, "", "");
    var pt := PiTee(z, z, z, z, z, z, z, "", "");
    var cl := CL(z, z, z, "", "");
    var clq := CLQ(z, z, 0.0, z, 0, "", "");
    MatchingReturn(ZERO, ZERO, ccll, ccll, ccll, ccll, ccll, ccll, ccll, ccll, pt, pt,
                   cl, clq, cl, clq, cl, clq, cl, clq)
  }

  /** `2 pi unscale(freq)`: the angular frequency every solver receives. */
  function Omega(m: Libm, freq: real, fu: Unit): real
    requires Scalable(m, fu)
  {
    Angular(UnscaleVal(m, freq, fu))
  }

  /**
   * What `calc_networks` is modelled on: scalable units, ports whose
   * reading divides by non-zero values, and, once they are read, passive
   * ports at a positive frequency.
   */
  predicate NetworksDefined(m: Libm, rs: real, xs: real, rl: real, xl: real, imp: string, z0: real, freq: real,
                            fScale: string, cScale: string, lScale: string, zScale: string)
  {
    var fu, cu, lu := UnitFromStr(fScale).value, UnitFromStr(cScale).value, UnitFromStr(lScale).value;
    Scalable(m, fu) && Scalable(m, cu) && Scalable(m, lu)
    && SelectorDefined(m, imp, Complex(rs, xs), z0, cu) && SelectorDefined(m, imp, Complex(rl, xl), z0, cu)
    && var ports := NetworkPorts(m, rs, xs, rl, xl, imp, zScale, z0, Omega(m, freq, fu), cu);
       ports.Ok? ==> Passive(ports.value.0, ports.value.1, Omega(m, freq, fu))
  }

  /** Every solver's result for the ports `zs`, `zl`: the Q-target forms get `q`, Pi and Tee get `qNet`. */
  function Solutions(m: Libm, zs: Complex, zl: Complex, q: real, qNet: real, w: real, cu: Unit, lu: Unit): (r: MatchingReturn)
    requires Passive(zs, zl, w) && SqrtLaw(m) && Scalable(m, cu) && Scalable(m, lu)
    ensures r.zs == zs && r.zl == zl
  {
    MatchingReturn(zs, zl,
                   HP.Hp1(m, zs, zl, w, cu, lu), HP.Hp2(m, zs, zl, w, cu, lu),
                   LP.Lp1(m, zs, zl, w, cu, lu), LP.Lp2(m, zs, zl, w, cu, lu),
                   BP.Bp1(m, zs, zl, w, cu, lu), BP.Bp2(m, zs, zl, w, cu, lu),
                   BP.Bp3(m, zs, zl, w, cu, lu), BP.Bp4(m, zs, zl, w, cu, lu),
                   P.Pi(m, zs, zl, w, qNet, cu, lu), T.Tee(m, zs, zl, w, qNet, cu, lu),
                   E.HpEllCl(m, zs, zl, w, cu, lu), EQ.HpEllClWQ(m, zs, zl, q, w, cu, lu),
                   E.HpEllLc(m, zs, zl, w, cu, lu), EQ.HpEllLcWQ(m, zs, zl, q, w, cu, lu),
                   E.LpEllCl(m, zs, zl, w, cu, lu), EQ.LpEllClWQ(m, zs, zl, q, w, cu, lu),
                   E.LpEllLc(m, zs, zl, w, cu, lu), EQ.LpEllLcWQ(m, zs, zl, q, w, cu, lu))
  }

  /** What `calc_networks` returns: the selector error, or the ports read and every solver's result for them. */
  function CalcNetworksResult(m: Libm, rs: real, xs: real, rl: real, xl: real, imp: string, qNet: real, q: real,
                              z0: real, freq: real, fScale: string, cScale: string, lScale: string, zScale: string)
    : (r: Result<MatchingReturn>)
    requires SqrtLaw(m) && NetworksDefined(m, rs, xs, rl, xl, imp, z0, freq, fScale, cScale, lScale, zScale)
    ensures r.Err? <==> imp !in {"zri", "yri", "gma", "gri", "rc"} || zScale !in {"diff", "se"}
    ensures r.Err? ==> r.error == UNKNOWN_IMPEDANCE
    ensures r.Ok? ==> var ports := NetworkPorts(m, rs, xs, rl, xl, imp, zScale, z0,
                                                Omega(m, freq, UnitFromStr(fScale).value), UnitFromStr(cScale).value);
      r.value.zs == ports.value.0 && r.value.zl == ports.value.1
  {
    var fu, cu, lu := UnitFromStr(fScale).value, UnitFromStr(cScale).value, UnitFromStr(lScale).value;
    var w := Omega(m, freq, fu);
    match NetworkPorts(m, rs, xs, rl, xl, imp, zScale, z0, w, cu)
    case Err(e) => Err(e)
    case Ok((zs, zl)) => Ok(Solutions(m, zs, zl, q, qNet, w, cu, lu))
  }

  /**
   * `calc_networks`: reads the ports, then fills a default record field by
   * field from the solvers, and finally echoes the ports.
   */
  method CalcNetworks(m: Libm, rs: real, xs: real, rl: real, xl: real, imp: string, qNet: real, q: real,
                      z0: real, freq: real, fScale: string, cScale: string, lScale: string, zScale: string)
    returns (r: Result<MatchingReturn>)
    requires SqrtLaw(m) && NetworksDefined(m, rs, xs, rl, xl, imp, z0, freq, fScale, cScale, lScale, zScale)
    ensures r == CalcNetworksResult(m, rs, xs, rl, xl, imp, qNet, q, z0, freq, fScale, cScale, lScale, zScale)
  {
    var fu, cu, lu := UnitFromStr(fScale).value, UnitFromStr(cScale).value, UnitFromStr(lScale).value;
    var w := Omega(m, freq, fu);
    var ports := NetworkPorts(m, rs, xs, rl, xl, imp, zScale, z0, w, cu);
    if ports.Err? {
      return Err(ports.error);
    }
    var zs, zl := ports.value.0, ports.value.1;
    var out := DefaultReturn();
    var cl: CL;
    var clq: CLQ;
    var ccll: CCLL;
    var pt: PiTee;
    cl := E.CalcHpEllCl(m, zs, zl, w, cu, lu);
    out := out.(hpEllCl := cl);
    clq := EQ.CalcHpEllClWQ(m, zs, zl, q, w, cu, lu);
    out := out.(hpEllClWQ := clq);
    cl := E.CalcHpEllLc(m, zs, zl, w, cu, lu);
    out := out.(hpEllLc := cl);
    clq := EQ.CalcHpEllLcWQ(m, zs, zl, q, w, cu, lu);
    out := out.(hpEllLcWQ := clq);
    cl := E.CalcLpEllCl(m, zs, zl, w, cu, lu);
    out := out.(lpEllCl := cl);
    clq := EQ.CalcLpEllClWQ(m, zs, zl, q, w, cu, lu);
    out := out.(lpEllClWQ := clq);
    cl := E.CalcLpEllLc(m, zs, zl, w, cu, lu);
    out := out.(lpEllLc := cl);
    clq := EQ.CalcLpEllLcWQ(m, zs, zl, q, w, cu, lu);
    out := out.(lpEllLcWQ := clq);
    pt := T.CalcTee(m, zs, zl, w, qNet, cu, lu);
    out := out.(tee := pt);
    pt := P.CalcPi(m, zs, zl, w, qNet, cu, lu);
    out := out.(pi := pt);
    ccll := LP.CalcLp1(m, zs, zl, w, cu, lu);
    out := out.(lp1 := ccll);
    ccll := LP.CalcLp2(m, zs, zl, w, cu, lu);
    out := out.(lp2 := ccll);
    ccll := HP.CalcHp1(m, zs, zl, w, cu, lu);
    out := out.(hp1 := ccll);
    ccll := HP.CalcHp2(m, zs, zl, w, cu, lu);
    out := out.(hp2 := ccll);
    ccll := BP.CalcBp1(m, zs, zl, w, cu, lu);
    out := out.(bp1 := ccll);
    ccll := BP.CalcBp2(m, zs, zl, w, cu, lu);
    out := out.(bp2 := ccll);
    ccll := BP.CalcBp3(m, zs, zl, w, cu, lu);
    out := out.(bp3 := ccll);
    ccll := BP.CalcBp4(m, zs, zl, w, cu, lu);
    out := out.(bp4 := ccll);
    out := out.(zs := zs);
    out := out.(zl := zl);
    r := Ok(out);
  }
}
