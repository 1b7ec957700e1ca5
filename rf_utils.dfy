/**
 * RF helpers (`rf_utils.rs`): selector parsers and printers, a second copy
 * of the prefix table (without the pseudo-units), complex-number input
 * forms, and the reflection-coefficient maps.
 */
module RfUtils {
  import opened Wrappers
  import opened Numeric
  import U = Units

  /** The quantity a label is for. */
  datatype Element = Capacitor | Inductor | Resistor | Frequency

  /** The aliases `Element::from_str` accepts for each quantity. */
  const CAPACITOR_NAMES: set<string> := {"c", "cap", "capacitor"}
  const INDUCTOR_NAMES: set<string> := {"l", "ind", "inductor"}
  const RESISTOR_NAMES: set<string> := {"r", "res", "resistor"}
  const FREQUENCY_NAMES: set<string> := {"f", "freq", "frequency"}

  /** No alias is listed for two quantities. */
  lemma ElementNamesDistinct(s: string)
    ensures s in INDUCTOR_NAMES ==> s !in CAPACITOR_NAMES
    ensures s in RESISTOR_NAMES ==> s !in CAPACITOR_NAMES
    ensures s in RESISTOR_NAMES ==> s !in INDUCTOR_NAMES
    ensures s in FREQUENCY_NAMES ==> s !in CAPACITOR_NAMES
    ensures s in FREQUENCY_NAMES ==> s !in INDUCTOR_NAMES
    ensures s in FREQUENCY_NAMES ==> s !in RESISTOR_NAMES
  {
  }

  /** Exactly the listed aliases parse, each to its own quantity; every other string is the error. */
  function ElementFromStr(s: string): (r: Result<Element>)
    ensures r.Err? <==> s !in CAPACITOR_NAMES + INDUCTOR_NAMES + RESISTOR_NAMES + FREQUENCY_NAMES
    ensures r.Err? ==> r.error == "Element not recognize"
    ensures r == Ok(Capacitor) <==> s in CAPACITOR_NAMES
    ensures r == Ok(Inductor) <==> s in INDUCTOR_NAMES
    ensures r == Ok(Resistor) <==> s in RESISTOR_NAMES
    ensures r == Ok(Frequency) <==> s in FREQUENCY_NAMES
  {
    ElementNamesDistinct(s);
    if s in CAPACITOR_NAMES then Ok(Capacitor)
    else if s in INDUCTOR_NAMES then Ok(Inductor)
    else if s in RESISTOR_NAMES then Ok(Resistor)
    else if s in FREQUENCY_NAMES then Ok(Frequency)
    else Err("Element not recognize")
  }

  /** Prints the unit symbol of the quantity. */
  function ElementToString(e: Element): (r: string)
    ensures 0 < |r| <= 2
  {
    match e
    case Capacitor => "F"
    case Inductor => "H"
    case Resistor => "Ω"
    case Frequency => "Hz"
  }

  /**
   * The printer and the parser are not inverse: the printed unit symbol is
   * not one of the aliases, so it does not parse back.
   */
  lemma ElementSymbolDoesNotParse(e: Element)
    ensures ElementFromStr(ElementToString(e)).Err?
  {
  }

  /** The aliases of each quantity parse to it. */
  lemma ElementAliases()
    ensures ElementFromStr("c") == ElementFromStr("cap") == ElementFromStr("capacitor") == Ok(Capacitor)
    ensures ElementFromStr("l") == ElementFromStr("ind") == ElementFromStr("inductor") == Ok(Inductor)
    ensures ElementFromStr("r") == ElementFromStr("res") == ElementFromStr("resistor") == Ok(Resistor)
    ensures ElementFromStr("f") == ElementFromStr("freq") == ElementFromStr("frequency") == Ok(Frequency)
  {
  }

  /** The three ways a complex number can be entered. */
  datatype ComplexType = ReIm | MagAng | Db

  /** The aliases `ComplexType::from_str` accepts for each form. */
  const REIM_NAMES: set<string> := {"ri", "reim"}
  const MAGANG_NAMES: set<string> := {"ma", "magang"}
  const DB_NAMES: set<string> := {"db", "dbang"}

  /** No alias is listed for two forms. */
  lemma ComplexTypeNamesDistinct(s: string)
    ensures s in MAGANG_NAMES ==> s !in REIM_NAMES
    ensures s in DB_NAMES ==> s !in REIM_NAMES
    ensures s in DB_NAMES ==> s !in MAGANG_NAMES
  {
  }

  /** The selectors `gen_complex` accepts. */
  predicate KnownComplexType(s: string)
  {
    s in REIM_NAMES + MAGANG_NAMES + DB_NAMES
  }

  /** Exactly the listed aliases parse, each to its own form; every other string is the error. */
  function ComplexTypeFromStr(s: string): (r: Result<ComplexType>)
    ensures r.Ok? <==> KnownComplexType(s)
    ensures r.Err? ==> r.error == "ComplexType not recognized"
    ensures r == Ok(ReIm) <==> s in REIM_NAMES
    ensures r == Ok(MagAng) <==> s in MAGANG_NAMES
    ensures r == Ok(Db) <==> s in DB_NAMES
  {
    ComplexTypeNamesDistinct(s);
    if s in REIM_NAMES then Ok(ReIm)
    else if s in MAGANG_NAMES then Ok(MagAng)
    else if s in DB_NAMES then Ok(Db)
    else Err("ComplexType not recognized")
  }

  /** An angle in degrees, in radians. */
  function Radians(deg: real): real { deg * PI / 180.0 }

  /**
   * `gen_complex`: rectangular, magnitude/angle (degrees) or
   * dB-magnitude/angle input; any other selector is an error.
   */
  function GenComplex(m: Libm, re: real, im: real, imp: string): (r: Result<Complex>)
    ensures r.Ok? <==> KnownComplexType(imp)
    ensures r.Err? ==> r.error == "ComplexType not recognized"
    ensures imp == "ri" || imp == "reim" ==> r == Ok(Complex(re, im))
    ensures imp == "ma" || imp == "magang" ==> r == Ok(Polar(m, re, Radians(im)))
    ensures imp == "db" || imp == "dbang" ==> r == Ok(Polar(m, m.pow10(re / 20.0), Radians(im)))
  {
    match ComplexTypeFromStr(imp)
    case Ok(ReIm) => Ok(Complex(re, im))
    case Ok(MagAng) => Ok(Polar(m, re, im * PI / 180.0))
    case Ok(Db) => Ok(Polar(m, m.pow10(re / 20.0), im * PI / 180.0))
    case Err(_) => Err("ComplexType not recognized")
  }

  /** The prefix units of this file; it has no pseudo-units. */
  datatype Unit =
    | Tera | Giga | Mega | Kilo | Base | Milli | Micro | Nano | Pico | Femto
    | Lambda(freq: real, er: real)

  const LAMBDA_1: Unit := Lambda(1.0, 1.0)

  /**
   * The aliases of each unit other than `Base`: the lists of `unit.rs`
   * without the pseudo-units.
   */
  function UnitNames(u: Unit): set<string>
  {
    match u
    case Tera => U.TERA_NAMES
    case Giga => U.GIGA_NAMES
    case Mega => U.MEGA_NAMES
    case Kilo => U.KILO_NAMES
    case Base => {}
    case Milli => U.MILLI_NAMES
    case Micro => U.MICRO_NAMES
    case Nano => U.NANO_NAMES
    case Pico => U.PICO_NAMES
    case Femto => U.FEMTO_NAMES
    case Lambda(f, er) => if f == 1.0 && er == 1.0 then U.LAMBDA_NAMES else {}
  }

  /**
   * Never fails.  Each alias list gives its own unit and nothing else does;
   * any other string, the empty string included, means `Base`.
   */
  function UnitFromStr(s: string): (r: Result<Unit>)
    ensures r.Ok?
    ensures forall u :: u != Base ==> (r == Ok(u) <==> s in UnitNames(u))
    ensures r == Ok(Base) <==> forall u :: s !in UnitNames(u)
  {
    U.LargeNamesDistinct(s);
    U.MicroNanoNamesDistinct(s);
    U.PicoFemtoNamesDistinct(s);
    U.OtherNamesDistinct(s);
    if s in U.TERA_NAMES then Ok(Tera)
    else if s in U.GIGA_NAMES then Ok(Giga)
    else if s in U.MEGA_NAMES then Ok(Mega)
    else if s in U.KILO_NAMES then Ok(Kilo)
    else if s in U.MILLI_NAMES then Ok(Milli)
    else if s in U.MICRO_NAMES then Ok(Micro)
    else if s in U.NANO_NAMES then Ok(Nano)
    else if s in U.PICO_NAMES then Ok(Pico)
    else if s in U.FEMTO_NAMES then Ok(Femto)
    else if s in U.LAMBDA_NAMES then Ok(LAMBDA_1)
    else Ok(Base)
  }

  /** A parsed wavelength unit always carries frequency and permittivity 1. */
  lemma ParsedLambda(s: string)
    ensures UnitFromStr(s).value.Lambda? ==> UnitFromStr(s).value == LAMBDA_1
  {
  }

  /** The unit of `unit.rs` with the same name. */
  function AsUnitsUnit(u: Unit): (v: U.Unit)
    ensures v != U.Q && v != U.K && v != U.N
    ensures u == Base <==> v == U.Base
  {
    match u
    case Tera => U.Tera
    case Giga => U.Giga
    case Mega => U.Mega
    case Kilo => U.Kilo
    case Base => U.Base
    case Milli => U.Milli
    case Micro => U.Micro
    case Nano => U.Nano
    case Pico => U.Pico
    case Femto => U.Femto
    case Lambda(f, er) => U.Lambda(f, er)
  }

  /** The two files list the same aliases for every unit they share. */
  lemma SharedUnitNames(u: Unit)
    ensures UnitNames(u) == U.UnitNames(AsUnitsUnit(u))
  {
  }

  /** Both parsers agree on every string, except that the pseudo-units of `unit.rs` are `Base` here. */
  lemma {:induction false} UnitFromStrAgrees(s: string)
    ensures U.UnitFromStr(s).value !in {U.Q, U.K, U.N} ==> U.UnitFromStr(s) == Ok(AsUnitsUnit(UnitFromStr(s).value))
    ensures U.UnitFromStr(s).value in {U.Q, U.K, U.N} ==> UnitFromStr(s) == Ok(Base)
  {
    var u := UnitFromStr(s).value;
    SharedUnitNames(u);
    forall w: Unit
      ensures UnitNames(w) == U.UnitNames(AsUnitsUnit(w))
    {
      SharedUnitNames(w);
    }
  }

  /** Unknown strings mean `Base`. */
  lemma UnknownIsBase()
    ensures UnitFromStr("") == UnitFromStr("google") == UnitFromStr(".sfwe") == Ok(Base)
  {
    U.UnknownIsBase();
    UnitFromStrAgrees("");
    UnitFromStrAgrees("google");
    UnitFromStrAgrees(".sfwe");
  }

  /** The pseudo-unit letters of `unit.rs` are not aliases here, so they mean `Base`. */
  lemma PseudoUnitsAreBase()
    ensures UnitFromStr("Q") == UnitFromStr("K") == UnitFromStr("N") == Ok(Base)
  {
    U.PseudoUnitCase();
    UnitFromStrAgrees("Q");
    UnitFromStrAgrees("K");
    UnitFromStrAgrees("N");
  }

  function UnitToString(u: Unit): (r: string)
    ensures |r| <= 1
    ensures r == "" <==> u == Base
  {
    match u
    case Tera => "T"
    case Giga => "G"
    case Mega => "M"
    case Kilo => "k"
    case Base => ""
    case Milli => "m"
    case Micro => "u"
    case Nano => "n"
    case Pico => "p"
    case Femto => "f"
    case Lambda(_, _) => "λ"
  }

  lemma UnitRoundTrip(u: Unit)
    ensures UnitFromStr(UnitToString(u)) == Ok(if u.Lambda? then LAMBDA_1 else u)
  {
  }

  predicate Scalable(m: Libm, u: Unit)
  {
    u.Lambda? ==> u.freq * m.sqrt(u.er) != 0.0
  }

  /** `Unit::scale`. */
  function UnitScale(m: Libm, u: Unit): (r: real)
    requires Scalable(m, u)
    ensures r != 0.0
    ensures !u.Lambda? ==> 0.0 < r
    ensures u.Lambda? ==> r * (u.freq * m.sqrt(u.er)) == C0
  {
    match u
    case Tera => 1e-12
    case Giga => 1e-9
    case Mega => 1e-6
    case Kilo => 1e-3
    case Base => 1.0
    case Milli => 1e3
    case Micro => 1e6
    case Nano => 1e9
    case Pico => 1e12
    case Femto => 1e15
    case Lambda(f, er) => C0 / (f * m.sqrt(er))
  }

  /** `Unit::unscale`. */
  function UnitUnscale(m: Libm, u: Unit): (r: real)
    requires Scalable(m, u)
    ensures r * UnitScale(m, u) == 1.0
  {
    1.0 / UnitScale(m, u)
  }

  /** `scale(val, unit)`: a value in base units, expressed in `unit`. */
  function ScaleVal(m: Libm, v: real, u: Unit): real
    requires Scalable(m, u)
  {
    v * UnitScale(m, u)
  }

  /** `unscale(val, unit)`: a value in `unit`, expressed in base units. */
  function UnscaleVal(m: Libm, v: real, u: Unit): real
    requires Scalable(m, u)
  {
    v * UnitUnscale(m, u)
  }

  /** Scaling and unscaling by the same unit undo each other. */
  lemma {:induction false} ScaleUnscaleInverse(m: Libm, v: real, u: Unit)
    requires Scalable(m, u)
    ensures UnscaleVal(m, ScaleVal(m, v, u), u) == v
    ensures ScaleVal(m, UnscaleVal(m, v, u), u) == v
  {
    Cancel(v, UnitScale(m, u), UnitUnscale(m, u));
  }

  lemma Cancel(v: real, s: real, t: real)
    requires t * s == 1.0
    ensures (v * s) * t == v && (v * t) * s == v
  {
    assert (v * s) * t == v * (t * s);
    assert (v * t) * s == v * (t * s);
  }

  /** `scale` and `unscale` are multiplication by the table entries, as in the tests. */
  lemma ScaleTable(m: Libm, v: real)
    ensures ScaleVal(m, v, Tera) == v * 1e-12 && UnscaleVal(m, v, Tera) == v * 1e12
    ensures ScaleVal(m, v, Milli) == v * 1e3 && UnscaleVal(m, v, Milli) == v * 1e-3
    ensures ScaleVal(m, v, Femto) == v * 1e15 && UnscaleVal(m, v, Femto) == v * 1e-15
    ensures ScaleVal(m, v, Base) == v && UnscaleVal(m, v, Base) == v
  {
  }

  /** `get_unit`: prefix and symbol, with `μ` for micro. */
  function GetUnit(u: Unit, e: Element): (r: string)
    ensures |r| == |UnitToString(u)| + |ElementToString(e)|
    ensures r[|r| - |ElementToString(e)|..] == ElementToString(e)
    ensures u == Micro ==> r[0] == 'μ'
    ensures u != Micro ==> r[..|UnitToString(u)|] == UnitToString(u)
  {
    if u == Micro then "μ" + ElementToString(e)
    else UnitToString(u) + ElementToString(e)
  }

  /** Rows of the label table. */
  lemma GetUnitExamples()
    ensures GetUnit(Tera, Capacitor) == "TF" && GetUnit(Tera, Inductor) == "TH"
    ensures GetUnit(Micro, Resistor) == "μΩ" && GetUnit(Kilo, Frequency) == "kHz"
    ensures GetUnit(Base, Capacitor) == "F" && GetUnit(Base, Frequency) == "Hz"
  {
  }

  predicate ScaleStrOk(m: Libm, s: string, freq: real, er: real)
  {
    UnitFromStr(s).value.Lambda? ==> freq * m.sqrt(er) != 0.0
  }

  /** `get_unit_scale`. */
  function GetUnitScale(m: Libm, s: string, freq: real, er: real): (r: real)
    requires ScaleStrOk(m, s, freq, er)
    ensures UnitFromStr(s).value.Lambda? ==> r * (freq * m.sqrt(er)) == C0
    ensures !UnitFromStr(s).value.Lambda? ==> r == UnitScale(m, UnitFromStr(s).value)
  {
    var u := UnitFromStr(s).value;
    var v := if u == LAMBDA_1 then Lambda(freq, er) else u;
    UnitScale(m, v)
  }

  /** `get_c64_inv`: the reciprocal of `re + j im`. */
  function GetC64Inv(re: real, im: real): (r: Complex)
    requires NonZero(Complex(re, im))
    ensures Mul(Complex(re, im), r) == ONE
  {
    Inv(Complex(re, im))
  }

  /** `calc_gamma`: the reflection coefficient of `z` against a real `z0`. */
  function CalcGamma(z: Complex, z0: real): (g: Complex)
    requires NonZero(Add(z, Real(z0)))
    ensures Mul(Add(z, Real(z0)), g) == Sub(z, Real(z0))
  {
    MulDiv(Sub(z, Real(z0)), Add(z, Real(z0)));
    Div(Sub(z, Real(z0)), Add(z, Real(z0)))
  }

  /** `calc_z`: the impedance whose reflection coefficient is `g`. */
  function CalcZ(g: Complex, z0: real): (z: Complex)
    requires NonZero(Sub(ONE, g))
    ensures Mul(Sub(ONE, g), z) == Scale(Add(ONE, g), z0)
  {
    MulDiv(Scale(Add(ONE, g), z0), Sub(ONE, g));
    Div(Scale(Add(ONE, g), z0), Sub(ONE, g))
  }

  /** `calc_z` undoes `calc_gamma`. */
  lemma {:induction false} ZOfGamma(z: Complex, z0: real)
    requires z0 != 0.0 && NonZero(Add(z, Real(z0)))
    ensures NonZero(Sub(ONE, CalcGamma(z, z0)))
    ensures CalcZ(CalcGamma(z, z0), z0) == z
  {
    var c := Real(z0);
    var g := CalcGamma(z, z0);
    assert Mul(Add(z, c), g) == Sub(z, c);
    if g == ONE {
      assert false;
    }
    assert Mul(Sub(ONE, g), z) == Scale(Add(ONE, g), z0) by {
      MulComm(Add(z, c), g);
    }
    DivUnique(Scale(Add(ONE, g), z0), Sub(ONE, g), z);
  }

  /** `calc_gamma` undoes `calc_z`. */
  lemma {:induction false} GammaOfZ(g: Complex, z0: real)
    requires z0 != 0.0 && NonZero(Sub(ONE, g))
    ensures NonZero(Add(CalcZ(g, z0), Real(z0)))
    ensures CalcGamma(CalcZ(g, z0), z0) == g
  {
    var c := Real(z0);
    var z := CalcZ(g, z0);
    assert Mul(Sub(ONE, g), z) == Scale(Add(ONE, g), z0);
    if !NonZero(Add(z, c)) {
      assert false;
    }
    assert Mul(Add(z, c), g) == Sub(z, c) by {
      MulComm(Sub(ONE, g), z);
    }
    DivUnique(Sub(z, c), Add(z, c), g);
  }

  /** `calc_z_from_rc`: the impedance of resistance `r` parallel to capacitance `c`. */
  function CalcZFromRc(m: Libm, r: real, c: real, freq: real, fscale: Unit, cscale: Unit): (z: Complex)
    requires r != 0.0 && Scalable(m, fscale) && Scalable(m, cscale)
    ensures Mul(z, Complex(1.0 / r, 2.0 * PI * UnscaleVal(m, freq, fscale) * UnscaleVal(m, c, cscale))) == ONE
  {
    var y := Complex(1.0 / r, 2.0 * PI * UnscaleVal(m, freq, fscale) * UnscaleVal(m, c, cscale));
    MulComm(y, Inv(y));
    Inv(y)
  }

  /** `calc_gamma_from_rc`: the reflection coefficient of that parallel RC. */
  function CalcGammaFromRc(m: Libm, r: real, c: real, z0: real, freq: real, fscale: Unit, cscale: Unit): (g: Complex)
    requires r != 0.0 && Scalable(m, fscale) && Scalable(m, cscale)
    requires NonZero(Add(CalcZFromRc(m, r, c, freq, fscale, cscale), Real(z0)))
    ensures g == CalcGamma(CalcZFromRc(m, r, c, freq, fscale, cscale), z0)
  {
    var y := Complex(1.0 / r, 2.0 * PI * UnscaleVal(m, freq, fscale) * UnscaleVal(m, c, cscale));
    var z := Inv(y);
    Div(Sub(z, Real(z0)), Add(z, Real(z0)))
  }

  /** What `calc_rc` divides by: a non-zero impedance with a lossy admittance, at a non-zero frequency. */
  predicate RcDefined(m: Libm, z: Complex, freq: real, fscale: Unit, rscale: Unit, cscale: Unit)
  {
    Scalable(m, fscale) && Scalable(m, rscale) && Scalable(m, cscale)
    && NonZero(z) && Inv(z).re != 0.0 && UnscaleVal(m, freq, fscale) != 0.0
  }

  /**
   * `calc_rc`: the parallel resistance and capacitance whose admittance is
   * `1 / z` at frequency `freq`.
   */
  function CalcRc(m: Libm, z: Complex, freq: real, fscale: Unit, rscale: Unit, cscale: Unit): (rc: (real, real))
    requires RcDefined(m, z, freq, fscale, rscale, cscale)
  {
    RcOfAdmittance(m, Inv(z), freq, fscale, rscale, cscale)
  }

  /** The `(r, c)` pair `calc_rc` reads off the admittance `y`. */
  function RcOfAdmittance(m: Libm, y: Complex, freq: real, fscale: Unit, rscale: Unit, cscale: Unit): (rc: (real, real))
    requires Scalable(m, fscale) && Scalable(m, rscale) && Scalable(m, cscale)
    requires y.re != 0.0 && UnscaleVal(m, freq, fscale) != 0.0
    ensures rc.0 * ScaleVal(m, y.re, rscale) == 1.0
    ensures ReadsSusceptance(m, rc.1, freq, fscale, cscale, y.im)
  {
    (ResistanceOf(m, y.re, rscale), CapacitanceOf(m, y.im, freq, fscale, cscale))
  }

  /** The resistance in `rscale` whose conductance is `g`. */
  function ResistanceOf(m: Libm, g: real, rscale: Unit): (r: real)
    requires Scalable(m, rscale) && g != 0.0
    ensures r * ScaleVal(m, g, rscale) == 1.0
  {
    UnitScaleNonZero(m, g, rscale);
    RecipMul(ScaleVal(m, g, rscale));
    1.0 / ScaleVal(m, g, rscale)
  }

  /** The capacitance in `cscale` whose susceptance at `freq` is `b`. */
  function CapacitanceOf(m: Libm, b: real, freq: real, fscale: Unit, cscale: Unit): (c: real)
    requires Scalable(m, fscale) && Scalable(m, cscale) && UnscaleVal(m, freq, fscale) != 0.0
    ensures ReadsSusceptance(m, c, freq, fscale, cscale, b)
  {
    SusceptanceQuotient(m, b, freq, fscale, cscale);
    ScaleVal(m, b / AngularFreq(m, freq, fscale), cscale)
  }

  /** A capacitance `c` in `cscale` whose susceptance `w c` at `freq` is `b`. */
  predicate ReadsSusceptance(m: Libm, c: real, freq: real, fscale: Unit, cscale: Unit, b: real)
    requires Scalable(m, fscale) && Scalable(m, cscale)
  {
    UnscaleVal(m, c, cscale) * AngularFreq(m, freq, fscale) == b
  }

  /** Dividing a susceptance by `w` gives the capacitance that reads it back. */
  lemma SusceptanceQuotient(m: Libm, b: real, freq: real, fscale: Unit, cscale: Unit)
    requires Scalable(m, fscale) && Scalable(m, cscale) && UnscaleVal(m, freq, fscale) != 0.0
    ensures AngularFreq(m, freq, fscale) != 0.0
    ensures ReadsSusceptance(m, ScaleVal(m, b / AngularFreq(m, freq, fscale), cscale), freq, fscale, cscale, b)
  {
    AngularNonZero(m, freq, fscale);
    ScaledQuotient(m, b, AngularFreq(m, freq, fscale), cscale);
  }

  lemma AngularNonZero(m: Libm, freq: real, fscale: Unit)
    requires Scalable(m, fscale) && UnscaleVal(m, freq, fscale) != 0.0
    ensures AngularFreq(m, freq, fscale) != 0.0
  {
    MulNonZero(2.0 * PI, UnscaleVal(m, freq, fscale));
  }

  /** The angular frequency `2 pi f` of a frequency given in `fscale`. */
  function AngularFreq(m: Libm, freq: real, fscale: Unit): real
    requires Scalable(m, fscale)
  {
    2.0 * PI * UnscaleVal(m, freq, fscale)
  }

  /** A quotient scaled into a unit and back, times the divisor, is the dividend. */
  lemma {:induction false} ScaledQuotient(m: Libm, y: real, w: real, u: Unit)
    requires Scalable(m, u) && w != 0.0
    ensures UnscaleVal(m, ScaleVal(m, y / w, u), u) * w == y
  {
    ScaleUnscaleInverse(m, y / w, u);
    DivMul(y, w);
  }

  lemma UnitScaleNonZero(m: Libm, v: real, u: Unit)
    requires Scalable(m, u) && v != 0.0
    ensures ScaleVal(m, v, u) != 0.0
  {
    MulNonZero(v, UnitScale(m, u));
  }

  /** `calc_rc` recovers the resistance and capacitance that `calc_z_from_rc` combined. */
  lemma {:induction false} RcRoundTrip(m: Libm, r: real, c: real, freq: real, fscale: Unit, cscale: Unit)
    requires r != 0.0 && Scalable(m, fscale) && Scalable(m, cscale) && UnscaleVal(m, freq, fscale) != 0.0
    ensures RcDefined(m, CalcZFromRc(m, r, c, freq, fscale, cscale), freq, fscale, Base, cscale)
    ensures CalcRc(m, CalcZFromRc(m, r, c, freq, fscale, cscale), freq, fscale, Base, cscale) == (r, c)
  {
    var y := Complex(1.0 / r, AngularFreq(m, freq, fscale) * UnscaleVal(m, c, cscale));
    var z := CalcZFromRc(m, r, c, freq, fscale, cscale);
    assert z == Inv(y);
    InvInv(y);
    assert Inv(z) == y;
    RecipRecip(r);
    assert RcDefined(m, z, freq, fscale, Base, cscale);
    assert CalcRc(m, z, freq, fscale, Base, cscale) == RcOfAdmittance(m, y, freq, fscale, Base, cscale);
    RcOfOwnAdmittance(m, r, c, freq, fscale, cscale);
  }

  /** The admittance `1/r + j w c` reads back as `(r, c)`. */
  lemma {:induction false} RcOfOwnAdmittance(m: Libm, r: real, c: real, freq: real, fscale: Unit, cscale: Unit)
    requires r != 0.0 && Scalable(m, fscale) && Scalable(m, cscale) && UnscaleVal(m, freq, fscale) != 0.0
    ensures RcOfAdmittance(m, Complex(1.0 / r, AngularFreq(m, freq, fscale) * UnscaleVal(m, c, cscale)), freq, fscale, Base, cscale)
         == (r, c)
  {
    var w := AngularFreq(m, freq, fscale);
    var y := Complex(1.0 / r, w * UnscaleVal(m, c, cscale));
    RecipRecip(r);
    UnscaledProduct(m, c, w, cscale);
    assert ScaleVal(m, y.re, Base) == 1.0 / r;
    var rc := RcOfAdmittance(m, y, freq, fscale, Base, cscale);
    assert rc == (1.0 / ScaleVal(m, y.re, Base), ScaleVal(m, y.im / w, cscale));
    assert y == Complex(1.0 / r, AngularFreq(m, freq, fscale) * UnscaleVal(m, c, cscale));
    assert RcOfAdmittance(m, Complex(1.0 / r, AngularFreq(m, freq, fscale) * UnscaleVal(m, c, cscale)), freq, fscale, Base, cscale) == rc;
  }

  lemma RecipRecip(r: real)
    requires r != 0.0
    ensures 1.0 / r != 0.0 && 1.0 / (1.0 / r) == r
  {
  }

  /** Unscaling, multiplying by `w`, dividing by `w` and scaling back gives the value. */
  lemma {:induction false} UnscaledProduct(m: Libm, c: real, w: real, u: Unit)
    requires Scalable(m, u) && w != 0.0
    ensures ScaleVal(m, (w * UnscaleVal(m, c, u)) / w, u) == c
  {
    var uc := UnscaleVal(m, c, u);
    assert (w * uc) / w == uc;
    ScaleUnscaleInverse(m, c, u);
  }

  /** The record `calc_impedance` serialises. */
  datatype ImpedanceReturn = ImpedanceReturn(z: Complex, g: Complex, gMag: real, gAng: real, r: real, c: real)

  /** The divisions the selected input form performs are by non-zero values. */
  predicate InputDefined(m: Libm, re: real, im: real, imp: string, z0: real, freq: real, fu: Unit, cu: Unit)
  {
    Scalable(m, fu) && Scalable(m, cu) &&
    match imp
    case "z" => NonZero(Add(Complex(re, im), Real(z0)))
    case "ri" => NonZero(Sub(ONE, Complex(re, im)))
    case "ma" => NonZero(Sub(ONE, Polar(m, re, Radians(im))))
    case "db" => NonZero(Sub(ONE, Polar(m, m.pow10(re / 20.0), Radians(im))))
    case "rc" => re != 0.0 && NonZero(Add(CalcZFromRc(m, re, im, freq, fu, cu), Real(z0)))
    case _ => true
  }

  /** The impedance and reflection coefficient an input describes; `(1, 1)` for an unknown form. */
  function ZAndGamma(m: Libm, re: real, im: real, imp: string, z0: real, freq: real, fu: Unit, cu: Unit): (zg: (Complex, Complex))
    requires InputDefined(m, re, im, imp, z0, freq, fu, cu)
    ensures imp == "z" ==> zg.0 == Complex(re, im)
    ensures imp == "ri" ==> zg.1 == Complex(re, im)
    ensures imp !in {"z", "ri", "ma", "db", "rc"} ==> zg == (ONE, ONE)
  {
    match imp
    case "z" => (Complex(re, im), CalcGamma(Complex(re, im), z0))
    case "ri" => (CalcZ(Complex(re, im), z0), Complex(re, im))
    case "ma" => (CalcZ(Polar(m, re, im * PI / 180.0), z0), Polar(m, re, im * PI / 180.0))
    case "db" =>
      (CalcZ(Polar(m, m.pow10(re / 20.0), im * PI / 180.0), z0), Polar(m, m.pow10(re / 20.0), im * PI / 180.0))
    case "rc" => (CalcZFromRc(m, re, im, freq, fu, cu), CalcGammaFromRc(m, re, im, z0, freq, fu, cu))
    case _ => (ONE, ONE)
  }

  /** For every recognised form, the reflection coefficient reported is that of the impedance reported. */
  lemma {:induction false} ZAndGammaConsistent(m: Libm, re: real, im: real, imp: string, z0: real, freq: real, fu: Unit, cu: Unit)
    requires InputDefined(m, re, im, imp, z0, freq, fu, cu) && z0 != 0.0
    requires imp in {"z", "ri", "ma", "db", "rc"}
    ensures NonZero(Add(ZAndGamma(m, re, im, imp, z0, freq, fu, cu).0, Real(z0)))
    ensures CalcGamma(ZAndGamma(m, re, im, imp, z0, freq, fu, cu).0, z0) == ZAndGamma(m, re, im, imp, z0, freq, fu, cu).1
  {
    match imp
    case "z" =>
    case "ri" => GammaOfZ(Complex(re, im), z0);
    case "ma" => GammaOfZ(Polar(m, re, Radians(im)), z0);
    case "db" => GammaOfZ(Polar(m, m.pow10(re / 20.0), Radians(im)), z0);
    case "rc" =>
  }

  predicate ImpedanceDefined(m: Libm, re: real, im: real, imp: string, z0: real, freq: real, fScale: string, cScale: string)
  {
    var fu := UnitFromStr(fScale).value;
    var cu := UnitFromStr(cScale).value;
    InputDefined(m, re, im, imp, z0, freq, fu, cu)
    && RcDefined(m, ZAndGamma(m, re, im, imp, z0, freq, fu, cu).0, freq, fu, Base, cu)
  }

  /**
   * `calc_impedance`: decodes the input form, then reports the impedance,
   * the reflection coefficient (also as magnitude and angle in degrees) and
   * the equivalent parallel RC.  An unknown form is not an error: it
   * proceeds with z = g = 1.
   */
  function CalcImpedance(m: Libm, re: real, im: real, imp: string, z0: real, freq: real,
                         fScale: string, rScale: string, cScale: string): (r: ImpedanceReturn)
    requires ImpedanceDefined(m, re, im, imp, z0, freq, fScale, cScale)
    ensures imp !in {"z", "ri", "ma", "db", "rc"} ==> r.z == ONE && r.g == ONE
    ensures imp == "z" ==> r.z == Complex(re, im)
    ensures imp == "ri" ==> r.g == Complex(re, im)
    ensures r.gMag == Abs(m, r.g)
  {
    var fu := UnitFromStr(fScale).value;
    var cu := UnitFromStr(cScale).value;
    var (z, g) := ZAndGamma(m, re, im, imp, z0, freq, fu, cu);
    var (rr, cc) := CalcRc(m, z, freq, fu, Base, cu);
    ImpedanceReturn(z, g, Abs(m, g), m.atan2(g.im, g.re) * 180.0 / PI, rr, cc)
  }

  /** For the `rc` form, the reported parallel R and C are the ones entered. */
  lemma {:induction false} CalcImpedanceRc(m: Libm, re: real, im: real, z0: real, freq: real,
                                           fScale: string, rScale: string, cScale: string)
    requires ImpedanceDefined(m, re, im, "rc", z0, freq, fScale, cScale)
    ensures CalcImpedance(m, re, im, "rc", z0, freq, fScale, rScale, cScale).r == re
    ensures CalcImpedance(m, re, im, "rc", z0, freq, fScale, rScale, cScale).c == im
  {
    RcRoundTrip(m, re, im, freq, UnitFromStr(fScale).value, UnitFromStr(cScale).value);
  }
}
