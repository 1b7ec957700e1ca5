/**
 * Engineering-prefix units (`unit.rs`): the `Unit` and `UnitType` enums,
 * their parsers and printers, and the prefix scale table.
 */
module Units {
  import opened Wrappers
  import opened Numeric

  /** The physical quantity a label is for. */
  datatype UnitType = Farad | Henry | Ohm | Hz

  /**
   * An engineering prefix, the wavelength unit, or one of the pseudo-units
   * `Q` (quality factor), `K` (coupling coefficient) and `N` (turns ratio).
   */
  datatype Unit =
    | Tera | Giga | Mega | Kilo | Base | Milli | Micro | Nano | Pico | Femto
    | Lambda(freq: real, er: real)
    | Q | K | N

  /** The wavelength unit as the parser produces it, before a frequency is known. */
  const LAMBDA_1: Unit := Lambda(1.0, 1.0)

  /** The aliases `UnitType::from_str` accepts for each quantity. */
  const FARAD_NAMES: set<string> := {"c", "cap", "capacitor", "F"}
  const HENRY_NAMES: set<string> := {"l", "ind", "inductor", "H"}
  const OHM_NAMES: set<string> := {"r", "res", "resistor", "Ω"}
  const HZ_NAMES: set<string> := {"f", "freq", "frequency", "Hz", "hz"}

  /** No alias is listed for two quantities. */
  lemma UnitTypeNamesDistinct(s: string)
    ensures s in HENRY_NAMES ==> s !in FARAD_NAMES
    ensures s in OHM_NAMES ==> s !in FARAD_NAMES && s !in HENRY_NAMES
    ensures s in HZ_NAMES ==> s !in FARAD_NAMES && s !in HENRY_NAMES && s !in OHM_NAMES
  {
  }

  /** Exactly the listed aliases parse, each to its own quantity; every other string is the error. */
  function UnitTypeFromStr(s: string): (r: Result<UnitType>)
    ensures r.Err? <==> s !in FARAD_NAMES + HENRY_NAMES + OHM_NAMES + HZ_NAMES
    ensures r.Err? ==> r.error == "UnitType not recognize"
    ensures r == Ok(Farad) <==> s in FARAD_NAMES
    ensures r == Ok(Henry) <==> s in HENRY_NAMES
    ensures r == Ok(Ohm) <==> s in OHM_NAMES
    ensures r == Ok(Hz) <==> s in HZ_NAMES
  {
    UnitTypeNamesDistinct(s);
    if s in FARAD_NAMES then Ok(Farad)
    else if s in HENRY_NAMES then Ok(Henry)
    else if s in OHM_NAMES then Ok(Ohm)
    else if s in HZ_NAMES then Ok(Hz)
    else Err("UnitType not recognize")
  }

  function UnitTypeToString(t: UnitType): (r: string)
    ensures 0 < |r| <= 2
  {
    match t
    case Farad => "F"
    case Henry => "H"
    case Ohm => "Ω"
    case Hz => "Hz"
  }

  /** Printing a unit type and parsing it back gives the same type. */
  lemma UnitTypeRoundTrip(t: UnitType)
    ensures UnitTypeFromStr(UnitTypeToString(t)) == Ok(t)
  {
  }

  /** The aliases `Unit::from_str` accepts for each unit. */
  const TERA_NAMES: set<string> := {"tera", "T", "THz", "thz"}
  const GIGA_NAMES: set<string> := {"giga", "G", "GHz", "ghz", "GΩ"}
  const MEGA_NAMES: set<string> := {"mega", "M", "MHz", "mhz", "MΩ"}
  const KILO_NAMES: set<string> := {"kilo", "k", "kHz", "khz", "kΩ"}
  const MILLI_NAMES: set<string> := {"milli", "m", "mΩ", "mF", "mH"}
  const MICRO_NAMES: set<string> := {"micro", "u", "uΩ", "μΩ", "uF", "μF", "uH", "μH", "um", "μm"}
  const NANO_NAMES: set<string> := {"nano", "n", "nΩ", "nF", "nH"}
  const PICO_NAMES: set<string> := {"pico", "p", "pΩ", "pF", "pH"}
  const FEMTO_NAMES: set<string> := {"femto", "f", "fΩ", "fF", "fH"}
  const LAMBDA_NAMES: set<string> := {"lambda", "λ", "wavelength"}
  const Q_NAMES: set<string> := {"Q", "q"}

  /**
   * The aliases of each unit other than `Base`; a wavelength unit is only
   * ever parsed with frequency and permittivity 1.
   */
  function UnitNames(u: Unit): set<string>
  {
    match u
    case Tera => TERA_NAMES
    case Giga => GIGA_NAMES
    case Mega => MEGA_NAMES
    case Kilo => KILO_NAMES
    case Base => {}
    case Milli => MILLI_NAMES
    case Micro => MICRO_NAMES
    case Nano => NANO_NAMES
    case Pico => PICO_NAMES
    case Femto => FEMTO_NAMES
    case Lambda(f, er) => if f == 1.0 && er == 1.0 then LAMBDA_NAMES else {}
    case Q => Q_NAMES
    case K => {"K"}
    case N => {"N"}
  }

  /** No alias of giga, mega, kilo or milli is listed for an earlier unit. */
  lemma LargeNamesDistinct(s: string)
    ensures s in GIGA_NAMES ==> s !in TERA_NAMES
    ensures s in MEGA_NAMES ==> s !in TERA_NAMES
    ensures s in MEGA_NAMES ==> s !in GIGA_NAMES
    ensures s in KILO_NAMES ==> s !in TERA_NAMES
    ensures s in KILO_NAMES ==> s !in GIGA_NAMES
    ensures s in KILO_NAMES ==> s !in MEGA_NAMES
    ensures s in MILLI_NAMES ==> s !in TERA_NAMES
    ensures s in MILLI_NAMES ==> s !in GIGA_NAMES
    ensures s in MILLI_NAMES ==> s !in MEGA_NAMES
    ensures s in MILLI_NAMES ==> s !in KILO_NAMES
  {
  }

  /** No alias of micro or nano is listed for an earlier unit. */
  lemma MicroNanoNamesDistinct(s: string)
    ensures s in MICRO_NAMES ==> s !in TERA_NAMES
    ensures s in MICRO_NAMES ==> s !in GIGA_NAMES
    ensures s in MICRO_NAMES ==> s !in MEGA_NAMES
    ensures s in MICRO_NAMES ==> s !in KILO_NAMES
    ensures s in MICRO_NAMES ==> s !in MILLI_NAMES
    ensures s in NANO_NAMES ==> s !in TERA_NAMES
    ensures s in NANO_NAMES ==> s !in GIGA_NAMES
    ensures s in NANO_NAMES ==> s !in MEGA_NAMES
    ensures s in NANO_NAMES ==> s !in KILO_NAMES
    ensures s in NANO_NAMES ==> s !in MILLI_NAMES
    ensures s in NANO_NAMES ==> s !in MICRO_NAMES
  {
  }

  /** No alias of pico or femto is listed for an earlier unit. */
  lemma PicoFemtoNamesDistinct(s: string)
    ensures s in PICO_NAMES ==> s !in TERA_NAMES
    ensures s in PICO_NAMES ==> s !in GIGA_NAMES
    ensures s in PICO_NAMES ==> s !in MEGA_NAMES
    ensures s in PICO_NAMES ==> s !in KILO_NAMES
    ensures s in PICO_NAMES ==> s !in MILLI_NAMES
    ensures s in PICO_NAMES ==> s !in MICRO_NAMES
    ensures s in PICO_NAMES ==> s !in NANO_NAMES
    ensures s in FEMTO_NAMES ==> s !in TERA_NAMES
    ensures s in FEMTO_NAMES ==> s !in GIGA_NAMES
    ensures s in FEMTO_NAMES ==> s !in MEGA_NAMES
    ensures s in FEMTO_NAMES ==> s !in KILO_NAMES
    ensures s in FEMTO_NAMES ==> s !in MILLI_NAMES
    ensures s in FEMTO_NAMES ==> s !in MICRO_NAMES
    ensures s in FEMTO_NAMES ==> s !in NANO_NAMES
    ensures s in FEMTO_NAMES ==> s !in PICO_NAMES
  {
  }

  /** No alias of the wavelength or a pseudo-unit is listed for an earlier unit. */
  lemma OtherNamesDistinct(s: string)
    ensures s in LAMBDA_NAMES ==> s !in TERA_NAMES
    ensures s in LAMBDA_NAMES ==> s !in GIGA_NAMES
    ensures s in LAMBDA_NAMES ==> s !in MEGA_NAMES
    ensures s in LAMBDA_NAMES ==> s !in KILO_NAMES
    ensures s in LAMBDA_NAMES ==> s !in MILLI_NAMES
    ensures s in LAMBDA_NAMES ==> s !in MICRO_NAMES
    ensures s in LAMBDA_NAMES ==> s !in NANO_NAMES
    ensures s in LAMBDA_NAMES ==> s !in PICO_NAMES
    ensures s in LAMBDA_NAMES ==> s !in FEMTO_NAMES
    ensures s in Q_NAMES ==> s !in TERA_NAMES
    ensures s in Q_NAMES ==> s !in GIGA_NAMES
    ensures s in Q_NAMES ==> s !in MEGA_NAMES
    ensures s in Q_NAMES ==> s !in KILO_NAMES
    ensures s in Q_NAMES ==> s !in MILLI_NAMES
    ensures s in Q_NAMES ==> s !in MICRO_NAMES
    ensures s in Q_NAMES ==> s !in NANO_NAMES
    ensures s in Q_NAMES ==> s !in PICO_NAMES
    ensures s in Q_NAMES ==> s !in FEMTO_NAMES
    ensures s in Q_NAMES ==> s !in LAMBDA_NAMES
    ensures s in {"K"} ==> s !in TERA_NAMES
    ensures s in {"K"} ==> s !in GIGA_NAMES
    ensures s in {"K"} ==> s !in MEGA_NAMES
    ensures s in {"K"} ==> s !in KILO_NAMES
    ensures s in {"K"} ==> s !in MILLI_NAMES
    ensures s in {"K"} ==> s !in MICRO_NAMES
    ensures s in {"K"} ==> s !in NANO_NAMES
    ensures s in {"K"} ==> s !in PICO_NAMES
    ensures s in {"K"} ==> s !in FEMTO_NAMES
    ensures s in {"K"} ==> s !in LAMBDA_NAMES
    ensures s in {"K"} ==> s !in Q_NAMES
    ensures s in {"N"} ==> s !in TERA_NAMES
    ensures s in {"N"} ==> s !in GIGA_NAMES
    ensures s in {"N"} ==> s !in MEGA_NAMES
    ensures s in {"N"} ==> s !in KILO_NAMES
    ensures s in {"N"} ==> s !in MILLI_NAMES
    ensures s in {"N"} ==> s !in MICRO_NAMES
    ensures s in {"N"} ==> s !in NANO_NAMES
    ensures s in {"N"} ==> s !in PICO_NAMES
    ensures s in {"N"} ==> s !in FEMTO_NAMES
    ensures s in {"N"} ==> s !in LAMBDA_NAMES
    ensures s in {"N"} ==> s !in Q_NAMES
    ensures s in {"N"} ==> s !in {"K"}
  {
  }

  /**
   * Never fails.  Each alias list gives its own unit and nothing else does;
   * any string that is not an alias, the empty string included, means `Base`.
   */
  function UnitFromStr(s: string): (r: Result<Unit>)
    ensures r.Ok?
    ensures forall u :: u != Base ==> (r == Ok(u) <==> s in UnitNames(u))
    ensures r == Ok(Base) <==> forall u :: s !in UnitNames(u)
  {
    LargeNamesDistinct(s);
    MicroNanoNamesDistinct(s);
    PicoFemtoNamesDistinct(s);
    OtherNamesDistinct(s);
    if s in TERA_NAMES then Ok(Tera)
    else if s in GIGA_NAMES then Ok(Giga)
    else if s in MEGA_NAMES then Ok(Mega)
    else if s in KILO_NAMES then Ok(Kilo)
    else if s in MILLI_NAMES then Ok(Milli)
    else if s in MICRO_NAMES then Ok(Micro)
    else if s in NANO_NAMES then Ok(Nano)
    else if s in PICO_NAMES then Ok(Pico)
    else if s in FEMTO_NAMES then Ok(Femto)
    else if s in LAMBDA_NAMES then Ok(LAMBDA_1)
    else if s in Q_NAMES then Ok(Q)
    else if s == "K" then Ok(K)
    else if s == "N" then Ok(N)
    else Ok(Base)
  }

  /** A parsed wavelength unit always carries frequency and permittivity 1. */
  lemma ParsedLambda(s: string)
    ensures UnitFromStr(s).value.Lambda? ==> UnitFromStr(s).value == LAMBDA_1
  {
  }

  /** Letter case separates the pseudo-units from the prefixes; `Q` is case-blind. */
  lemma PseudoUnitCase()
    ensures UnitFromStr("K") == Ok(K) && UnitFromStr("k") == Ok(Kilo)
    ensures UnitFromStr("N") == Ok(N) && UnitFromStr("n") == Ok(Nano)
    ensures UnitFromStr("Q") == Ok(Q) && UnitFromStr("q") == Ok(Q)
  {
  }

  /** Unknown and empty strings fall back to `Base`. */
  lemma UnknownIsBase()
    ensures UnitFromStr("") == Ok(Base)
    ensures UnitFromStr("google") == Ok(Base)
    ensures UnitFromStr(".sfwe") == Ok(Base)
  {
  }

  function UnitToString(u: Unit): (r: string)
    ensures |r| <= 1
    ensures r == "" <==> u == Base
  {
    match u
    case Tera => "T"
    case Giga => "G"
    case Mega => "M"
    case Kilo => "k"
    case Base => ""
    case Milli => "m"
    case Micro => "u"
    case Nano => "n"
    case Pico => "p"
    case Femto => "f"
    case Lambda(_, _) => "λ"
    case Q => "Q"
    case K => "K"
    case N => "N"
  }

  /**
   * Printing then parsing is the identity, except that a wavelength unit
   * forgets its frequency and permittivity.
   */
  lemma UnitRoundTrip(u: Unit)
    ensures UnitFromStr(UnitToString(u)) == Ok(if u.Lambda? then LAMBDA_1 else u)
  {
  }

  /** A wavelength unit can be scaled when `freq * sqrt(er)` is not zero. */
  predicate Scalable(m: Libm, u: Unit)
  {
    u.Lambda? ==> u.freq * m.sqrt(u.er) != 0.0
  }

  /** `Unit::scale`: the factor from base units to this unit. */
  function UnitScale(m: Libm, u: Unit): (r: real)
    requires Scalable(m, u)
    ensures r != 0.0
    ensures !u.Lambda? ==> 0.0 < r
    ensures u.Lambda? ==> r * (u.freq * m.sqrt(u.er)) == C0
  {
    match u
    case Tera => 1e-12
    case Giga => 1e-9
    case Mega => 1e-6
    case Kilo => 1e-3
    case Base => 1.0
    case Milli => 1e3
    case Micro => 1e6
    case Nano => 1e9
    case Pico => 1e12
    case Femto => 1e15
    case Lambda(f, er) => C0 / (f * m.sqrt(er))
    case Q | K | N => 1.0
  }

  /** `Unit::unscale`: the factor from this unit back to base units. */
  function UnitUnscale(m: Libm, u: Unit): (r: real)
    requires Scalable(m, u)
    ensures r * UnitScale(m, u) == 1.0
  {
    1.0 / UnitScale(m, u)
  }

  /**
   * `scale(val, unit)` applied to a `unit::Unit` field, as the element and
   * frequency types do: a value in base units, expressed in `u`.
   */
  function ScaleVal(m: Libm, v: real, u: Unit): real
    requires Scalable(m, u)
  {
    v * UnitScale(m, u)
  }

  /** `unscale(val, unit)`: a value in `u`, expressed in base units. */
  function UnscaleVal(m: Libm, v: real, u: Unit): real
    requires Scalable(m, u)
  {
    v * UnitUnscale(m, u)
  }

  /** Scaling and unscaling by the same unit undo each other. */
  lemma {:induction false} ScaleUnscaleInverse(m: Libm, v: real, u: Unit)
    requires Scalable(m, u)
    ensures UnscaleVal(m, ScaleVal(m, v, u), u) == v
    ensures ScaleVal(m, UnscaleVal(m, v, u), u) == v
  {
    Cancel(v, UnitScale(m, u), UnitUnscale(m, u));
  }

  lemma Cancel(v: real, s: real, t: real)
    requires t * s == 1.0
    ensures (v * s) * t == v && (v * t) * s == v
  {
    assert (v * s) * t == v * (t * s);
    assert (v * t) * s == v * (t * s);
  }

  /** The pseudo-units and `Base` do not rescale. */
  lemma PseudoUnitsAreOne(m: Libm, u: Unit)
    requires u == Base || u == Q || u == K || u == N
    ensures UnitScale(m, u) == 1.0 && UnitUnscale(m, u) == 1.0
  {
  }

  /** `get_unit`: the label of a quantity in a unit, `μ` for micro. */
  function GetUnit(u: Unit, t: UnitType): (r: string)
    ensures |r| == |UnitToString(u)| + |UnitTypeToString(t)|
    ensures r[|r| - |UnitTypeToString(t)|..] == UnitTypeToString(t)
    ensures u == Micro ==> r[0] == 'μ'
    ensures u != Micro ==> r[..|UnitToString(u)|] == UnitToString(u)
  {
    if u == Micro then "μ" + UnitTypeToString(t)
    else UnitToString(u) + UnitTypeToString(t)
  }

  /** Entries of the label table, e.g. femtofarad is `fF`. */
  lemma GetUnitExamples()
    ensures GetUnit(Femto, Farad) == "fF"
    ensures GetUnit(Micro, Henry) == "μH"
    ensures GetUnit(Pico, Henry) == "pH"
    ensures GetUnit(Base, Ohm) == "Ω"
    ensures GetUnit(Giga, Hz) == "GHz"
  {
  }

  /** A parsed string may need the frequency and permittivity: only for `λ`. */
  predicate ScaleStrOk(m: Libm, s: string, freq: real, er: real)
  {
    UnitFromStr(s).value.Lambda? ==> freq * m.sqrt(er) != 0.0
  }

  /**
   * `get_unit_scale`: the scale of a unit string; a wavelength unit takes
   * the given frequency and permittivity.
   */
  function GetUnitScale(m: Libm, s: string, freq: real, er: real): (r: real)
    requires ScaleStrOk(m, s, freq, er)
    ensures UnitFromStr(s).value.Lambda? ==> r * (freq * m.sqrt(er)) == C0
    ensures !UnitFromStr(s).value.Lambda? ==> r == UnitScale(m, UnitFromStr(s).value)
  {
    var u := UnitFromStr(s).value;
    var v := if u == LAMBDA_1 then Lambda(freq, er) else u;
    UnitScale(m, v)
  }

  /** Units other than the wavelength ignore the frequency and permittivity. */
  lemma GetUnitScaleIgnoresFreq(m: Libm, s: string, f1: real, e1: real, f2: real, e2: real)
    requires !UnitFromStr(s).value.Lambda?
    ensures GetUnitScale(m, s, f1, e1) == GetUnitScale(m, s, f2, e2)
  {
  }
}
