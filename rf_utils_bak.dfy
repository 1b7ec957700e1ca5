/**
 * The older, string-keyed unit helpers kept in `rf_utils_bak.rs`: a
 * multiplier table `get_mult`, a literal label table `get_unit`, and the
 * table pair `Unit::scale` / `Unit::unscale`.
 */
module RfUtilsBak {
  import R = RfUtils

  /** The backup's engineering prefixes (no wavelength, no pseudo-units). */
  datatype Unit = Tera | Giga | Mega | Kilo | Base | Milli | Micro | Nano | Pico | Femto

  /** The aliases of each arm of `Unit::from_str`, in the order of the match. */
  const TERA_NAMES: set<string> := {"tera", "T", "THz", "thz"}
  const GIGA_NAMES: set<string> := {"giga", "G", "GHz", "ghz", "GΩ"}
  const MEGA_NAMES: set<string> := {"mega", "M", "MHz", "mhz", "MΩ"}
  const KILO_NAMES: set<string> := {"kilo", "k", "kHz", "khz", "kΩ"}
  const MILLI_NAMES: set<string> := {"milli", "m", "mΩ", "mF", "mH"}
  const MICRO_NAMES: set<string> := {"micro", "u", "μΩ", "μF", "μH"}
  const NANO_NAMES: set<string> := {"nano", "n", "nΩ", "nF", "nH"}
  const PICO_NAMES: set<string> := {"pico", "p", "pΩ", "pF", "pH"}
  const FEMTO_NAMES: set<string> := {"femto", "f", "fΩ", "fF", "fH"}

  /** The strings that parse to `u`; `Base` has no arm of its own. */
  function UnitNames(u: Unit): set<string>
  {
    match u
    case Tera => TERA_NAMES
    case Giga => GIGA_NAMES
    case Mega => MEGA_NAMES
    case Kilo => KILO_NAMES
    case Base => {}
    case Milli => MILLI_NAMES
    case Micro => MICRO_NAMES
    case Nano => NANO_NAMES
    case Pico => PICO_NAMES
    case Femto => FEMTO_NAMES
  }

  /** No alias of giga through milli is listed for an earlier arm. */
  lemma LargeNamesDistinct(s: string)
    ensures s in GIGA_NAMES ==> s !in TERA_NAMES
    ensures s in MEGA_NAMES ==> s !in TERA_NAMES && s !in GIGA_NAMES
    ensures s in KILO_NAMES ==> s !in TERA_NAMES && s !in GIGA_NAMES && s !in MEGA_NAMES
    ensures s in MILLI_NAMES ==> s !in TERA_NAMES && s !in GIGA_NAMES && s !in MEGA_NAMES && s !in KILO_NAMES
  {
  }

  /** No alias of micro or nano is listed for an earlier arm. */
  lemma MicroNanoNamesDistinct(s: string)
    ensures s in MICRO_NAMES ==> s !in TERA_NAMES
    ensures s in MICRO_NAMES ==> s !in GIGA_NAMES
    ensures s in MICRO_NAMES ==> s !in MEGA_NAMES
    ensures s in MICRO_NAMES ==> s !in KILO_NAMES
    ensures s in MICRO_NAMES ==> s !in MILLI_NAMES
    ensures s in NANO_NAMES ==> s !in TERA_NAMES
    ensures s in NANO_NAMES ==> s !in GIGA_NAMES
    ensures s in NANO_NAMES ==> s !in MEGA_NAMES
    ensures s in NANO_NAMES ==> s !in KILO_NAMES
    ensures s in NANO_NAMES ==> s !in MILLI_NAMES
    ensures s in NANO_NAMES ==> s !in MICRO_NAMES
  {
  }

  /** No alias of pico or femto is listed for an earlier arm. */
  lemma PicoFemtoNamesDistinct(s: string)
    ensures s in PICO_NAMES ==> s !in TERA_NAMES
    ensures s in PICO_NAMES ==> s !in GIGA_NAMES
    ensures s in PICO_NAMES ==> s !in MEGA_NAMES
    ensures s in PICO_NAMES ==> s !in KILO_NAMES
    ensures s in PICO_NAMES ==> s !in MILLI_NAMES
    ensures s in PICO_NAMES ==> s !in MICRO_NAMES
    ensures s in PICO_NAMES ==> s !in NANO_NAMES
    ensures s in FEMTO_NAMES ==> s !in TERA_NAMES
    ensures s in FEMTO_NAMES ==> s !in GIGA_NAMES
    ensures s in FEMTO_NAMES ==> s !in MEGA_NAMES
    ensures s in FEMTO_NAMES ==> s !in KILO_NAMES
    ensures s in FEMTO_NAMES ==> s !in MILLI_NAMES
    ensures s in FEMTO_NAMES ==> s !in MICRO_NAMES
    ensures s in FEMTO_NAMES ==> s !in NANO_NAMES
    ensures s in FEMTO_NAMES ==> s !in PICO_NAMES
  {
  }

  /**
   * `Unit::from_str`: never an error.  A string parses to a prefix exactly
   * when it is one of that prefix's aliases, and to `Base` exactly when it
   * is an alias of none (the `_ => Ok(Unit::Base)` arm).
   */
  function UnitFromStr(s: string): (u: Unit)
    ensures forall v :: v != Base ==> (u == v <==> s in UnitNames(v))
    ensures u == Base <==> forall v :: s !in UnitNames(v)
    ensures s in {"", "google", ".sfwe"} ==> u == Base
    ensures s in {"u", "μF", "micro"} ==> u == Micro
  {
    LargeNamesDistinct(s);
    MicroNanoNamesDistinct(s);
    PicoFemtoNamesDistinct(s);
    var u :=
      if s in TERA_NAMES then Tera
      else if s in GIGA_NAMES then Giga
      else if s in MEGA_NAMES then Mega
      else if s in KILO_NAMES then Kilo
      else if s in MILLI_NAMES then Milli
      else if s in MICRO_NAMES then Micro
      else if s in NANO_NAMES then Nano
      else if s in PICO_NAMES then Pico
      else if s in FEMTO_NAMES then Femto
      else Base;
    assert u != Base ==> s in UnitNames(u);
    u
  }

  /** `Unit::to_string`: the one-letter prefix, `u` for micro. */
  function UnitToString(u: Unit): (r: string)
    ensures |r| <= 1 && (r == "" <==> u == Base)
  {
    match u
    case Tera => "T"
    case Giga => "G"
    case Mega => "M"
    case Kilo => "k"
    case Base => ""
    case Milli => "m"
    case Micro => "u"
    case Nano => "n"
    case Pico => "p"
    case Femto => "f"
  }

  /** The printed prefix parses back to the same unit. */
  lemma UnitRoundTrip(u: Unit)
    ensures UnitFromStr(UnitToString(u)) == u
  {
  }

  /** `Unit::scale`. */
  function UnitScale(u: Unit): (r: real)
    ensures 0.0 < r
  {
    match u
    case Tera => 1e-12
    case Giga => 1e-9
    case Mega => 1e-6
    case Kilo => 1e-3
    case Base => 1.0
    case Milli => 1e3
    case Micro => 1e6
    case Nano => 1e9
    case Pico => 1e12
    case Femto => 1e15
  }

  /** `Unit::unscale`, a second literal table. */
  function UnitUnscale(u: Unit): (r: real)
    ensures 0.0 < r
  {
    match u
    case Tera => 1e12
    case Giga => 1e9
    case Mega => 1e6
    case Kilo => 1e3
    case Base => 1.0
    case Milli => 1e-3
    case Micro => 1e-6
    case Nano => 1e-9
    case Pico => 1e-12
    case Femto => 1e-15
  }

  /** The two tables are reciprocal entry by entry. */
  lemma ScaleTablesReciprocal(u: Unit)
    ensures UnitScale(u) * UnitUnscale(u) == 1.0
  {
  }

  /**
   * `get_mult`: the multiplier for a prefix string, 1 for anything
   * unrecognised.  Its match arms list the same aliases as `Unit::from_str`.
   */
  function GetMult(scale: string): (r: real)
    ensures r == UnitScale(UnitFromStr(scale))
  {
    if scale in TERA_NAMES then 1e-12
    else if scale in GIGA_NAMES then 1e-9
    else if scale in MEGA_NAMES then 1e-6
    else if scale in KILO_NAMES then 1e-3
    else if scale in MILLI_NAMES then 1e3
    else if scale in MICRO_NAMES then 1e6
    else if scale in NANO_NAMES then 1e9
    else if scale in PICO_NAMES then 1e12
    else if scale in FEMTO_NAMES then 1e15
    else 1.0
  }

  /** `get_mult` is total, and an unrecognised string gives 1. */
  lemma GetMultDefault(scale: string)
    ensures UnitFromStr(scale) == Base <==> GetMult(scale) == 1.0
  {
  }

  /** Label prefix per alias group: `μ` for micro, otherwise the printed prefix. */
  function Prefix(u: Unit): string
  {
    if u == Micro then "μ" else UnitToString(u)
  }

  /** `get_unit(scale, elem)`: the literal label table, keyed by the `Unit::from_str` aliases. */
  function GetUnit(scale: string, elem: R.Element): (r: string)
    ensures r == Prefix(UnitFromStr(scale)) + R.ElementToString(elem)
  {
    if scale in TERA_NAMES then Row("T", elem)
    else if scale in GIGA_NAMES then Row("G", elem)
    else if scale in MEGA_NAMES then Row("M", elem)
    else if scale in KILO_NAMES then Row("k", elem)
    else if scale in MILLI_NAMES then Row("m", elem)
    else if scale in MICRO_NAMES then Row("μ", elem)
    else if scale in NANO_NAMES then Row("n", elem)
    else if scale in PICO_NAMES then Row("p", elem)
    else if scale in FEMTO_NAMES then Row("f", elem)
    else Row("", elem)
  }

  /** One row of the label table, spelled out per element as the source does. */
  function Row(p: string, elem: R.Element): string
  {
    match elem
    case Capacitor => p + "F"
    case Inductor => p + "H"
    case Resistor => p + "Ω"
    case Frequency => p + "Hz"
  }

  /** Rows of the label test table. */
  lemma GetUnitExamples()
    ensures GetUnit("thz", R.Capacitor) == "TF" && GetUnit("μH", R.Inductor) == "μH"
    ensures GetUnit("kΩ", R.Frequency) == "kHz" && GetUnit("google", R.Resistor) == "Ω"
    ensures GetUnit("", R.Frequency) == "Hz" && GetUnit("u", R.Capacitor) == "μF"
  {
  }

  /** `scale(val, scale)`. */
  function ScaleVal(v: real, scale: string): (r: real)
    ensures r == v * UnitScale(UnitFromStr(scale))
  {
    v * GetMult(scale)
  }

  /** `unscale(val, scale)`: multiplication by `get_mult(scale)^-1`. */
  function UnscaleVal(v: real, scale: string): (r: real)
    ensures r == v * UnitUnscale(UnitFromStr(scale))
  {
    ScaleTablesReciprocal(UnitFromStr(scale));
    v * (1.0 / GetMult(scale))
  }

  /** Scaling and unscaling by the same string undo each other. */
  lemma {:induction false} ScaleUnscaleInverse(v: real, scale: string)
    ensures UnscaleVal(ScaleVal(v, scale), scale) == v
    ensures ScaleVal(UnscaleVal(v, scale), scale) == v
  {
    var s := UnitScale(UnitFromStr(scale));
    var t := UnitUnscale(UnitFromStr(scale));
    ScaleTablesReciprocal(UnitFromStr(scale));
    calc { UnscaleVal(ScaleVal(v, scale), scale); == (v * s) * t; == v * (s * t); == v; }
    calc { ScaleVal(UnscaleVal(v, scale), scale); == (v * t) * s; == v * (s * t); == v; }
  }

  /** The alias-loop test table for scaling. */
  lemma ScaleExamples(v: real)
    ensures ScaleVal(v, "thz") == v * 1e-12 && UnscaleVal(v, "thz") == v * 1e12
    ensures ScaleVal(v, "μF") == v * 1e6 && UnscaleVal(v, "μF") == v * 1e-6
    ensures ScaleVal(v, ".sfwe") == v && UnscaleVal(v, ".sfwe") == v
  {
  }
}
