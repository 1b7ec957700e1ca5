# rf-toolbox core in Dafny

A Dafny model of the computational core of rf-toolbox, a desktop RF
engineering toolbox. Its back end is Rust and its Smith-chart front end is
JavaScript. The model covers five parts:

- **Units and selectors.** The engineering-prefix units (`unit.rs`,
  `rf_utils.rs`, and the older string-keyed tables of `rf_utils_bak.rs`)
  with their parsers, printers and scale factors. Also the element and
  complex-format selectors, and the reflection coefficient Γ = (z − z0)/(z + z0)
  with its inverse.
- **Smith-chart geometry.** The chart map `find_smith_coord` and the arc
  sampler `arc_smith_points`. Also the per-element impedance step of
  `calc_ri`, `calc_ri_new`, `calc_ri_custom` and `calc_ri_tline`, including
  the lookup table of a `customZ` element.
- **Circuit elements.** Capacitor, inductor, resistor, series/parallel RLC,
  transformer, shorted and open stubs, transmission line and black box.
  Each is a class whose setters change one field, with its impedance `z`
  and its `calc_arc` sample loop. The `Frequency` value object is a class too.
- **Matching-network solvers.** The L-sections with and without a Q target,
  the two-section high-, low- and band-pass networks, and the Pi and Tee
  networks. Also the `calc_networks` dispatcher and the `change_impedance`
  conversion table. The solvers signal infeasible and degenerate cases
  with NaN and +∞; the model writes these sentinels out.
- **Front-end schematic operations.** Adding an element from the palette,
  editing values and unit labels, migrating files saved by older versions,
  the frequency-unit menus, and the 2^n table of tolerance corners with the
  corner overwrite. Also the chart's impedance-to-Γ conversion.

## Conventions

- **Numbers.** An `f64` is a `real`. Where a solver relies on IEEE
  sentinels, a value is `Numeric.Value = Num(v) | NaN | PosInf | NegInf`,
  and the arithmetic on it follows IEEE 754: `x / 0`, `inf · 0`, `inf / inf`
  and comparisons with NaN.
- **Complex numbers** are pairs of reals (`Numeric.Complex`).
- **Transcendental functions.** `sqrt`, `tan`, `atan`, `atan2`, `cos`, `sin`
  and powers of ten are the fields of a `Numeric.Libm` parameter. The laws
  Dafny needs are predicates on it: `SqrtLaw` (the non-negative root),
  `TanZero`, `AtanLaw` (the range of `atan`) and `PolarLaw` (`from_polar`
  inverts `norm`/`arg`). A lemma requires only the laws it uses.
- **State.** Rust structs that are mutated through `&mut self` are classes:
  the elements, `Frequency`, and the front end's `schematic` list.
- **Loops.** Every loop of the source is a `method` with a loop. Its
  `ensures` ties the result to a function, and the properties are lemmas
  about that function: the arc samplers, the `customZ` search, the
  step-by-step solvers, `calc_networks`, the normalisation loop, the
  tolerance table and the corner overwrite.
- **Errors.** A Rust `Err` is `Wrappers.Result`, with the source's own
  message text.

| file | module | source |
|---|---|---|
| wrappers.dfy | Wrappers | `Result` and `Option` |
| numeric.dfy | Numeric | complex arithmetic, `Libm`, real lemmas |
| unit.dfy | Units | src-tauri/src/unit.rs |
| frequency.dfy | Frequencies | src-tauri/src/frequency.rs |
| rf_utils.dfy | RfUtils | src-tauri/src/rf_utils.rs |
| rf_utils_bak.dfy | RfUtilsBak | src-tauri/src/rf_utils_bak.rs |
| smith.dfy | Smith | src-tauri/src/smith.rs (tags, chart map, arc sampler) |
| smith_ri.dfy | SmithRi | src-tauri/src/smith.rs (`calc_ri` family) |
| element.dfy | Elements | src-tauri/src/element.rs and the shared `calc_arc` loop |
| capacitor.dfy, inductor.dfy, resistor.dfy, rlc.dfy, transformer.dfy | Capacitors, Inductors, Resistors, Rlcs, Transformers | src-tauri/src/element/*.rs |
| lines.dfy, shortedstub.dfy, openstub.dfy, tline.dfy | Lines, ShortedStubs, OpenStubs, TLines | src-tauri/src/element/{shortedstub,openstub,tline}.rs |
| blackbox.dfy | BlackBoxes | src-tauri/src/element/blackbox.rs |
| networks.dfy | Networks | the sentinel values and result records of src-tauri/src/matching.rs |
| ell.dfy, ell_w_q.dfy | Ells, EllsWithQ | src-tauri/src/matching/ell.rs, ell_w_q.rs |
| two_section.dfy, hp.dfy, lp.dfy, bp.dfy | TwoSections, HighPass, LowPass, BandPass | src-tauri/src/matching/hp.rs, lp.rs, bp.rs |
| pi_tee.dfy, pi.dfy, tee.dfy | PiTees, Pis, Tees | src-tauri/src/matching/pi.rs, tee.rs |
| matching.dfy | Matching | src-tauri/src/matching.rs |
| schematic.dfy | Schematics | the front end's `schematic` list |
| util_js.dfy | UtilJs | src/assets/js/util.js |
| smith_tool.dfy, binary.dfy | SmithTool, Binary | src/assets/js/smith_tool.js |

## Model

| member | source | states |
|---|---|---|
| Units.UnitTypeFromStr | src-tauri/src/unit.rs:16-23 | exactly the strings of the four alias sets parse, each to its own quantity (c, cap, capacitor, F: Farad; l, ind, inductor, H: Henry; r, res, resistor, Ω: Ohm; f, freq, frequency, Hz, hz: Hz); every other string, the empty one included, is the error "UnitType not recognize" |
| Units.UnitTypeNamesDistinct | src-tauri/src/unit.rs:18-21 | no alias is listed for two quantities, so the order of the arms does not matter |
| Units.UnitTypeToString | src-tauri/src/unit.rs:27-35 | every quantity prints as a one- or two-character symbol |
| Units.UnitTypeRoundTrip | src-tauri/src/unit.rs:13-35 | printing a quantity and parsing the text gives the same quantity back |
| Units.UnitFromStr | src-tauri/src/unit.rs:59-78 | never fails; for every unit other than Base, the string parses to that unit exactly when it is one of that unit's aliases (UnitNames); it parses to Base exactly when it is nobody's alias |
| Units.UnitNames | src-tauri/src/unit.rs:61-75 | the alias set of each unit as listed: tera T THz thz, giga G GHz ghz GΩ, … femto f fΩ fF fH, lambda λ wavelength for Lambda(1, 1) only, Q q, K, N; Base has none (no contract: used by UnitFromStr's) |
| Units.LargeNamesDistinct | src-tauri/src/unit.rs:61-65 | no alias of giga, mega, kilo or milli is also listed for an earlier prefix |
| Units.MicroNanoNamesDistinct | src-tauri/src/unit.rs:61-69 | no alias of micro or nano is also listed for an earlier prefix |
| Units.PicoFemtoNamesDistinct | src-tauri/src/unit.rs:61-71 | no alias of pico or femto is also listed for an earlier prefix |
| Units.OtherNamesDistinct | src-tauri/src/unit.rs:61-75 | no alias of the wavelength, Q, K or N is also listed for an earlier unit |
| Units.ParsedLambda | src-tauri/src/unit.rs:72 | a parsed wavelength unit is always Lambda(1, 1) |
| Units.PseudoUnitCase | src-tauri/src/unit.rs:64-75 | case decides the pseudo-units: "K" is K but "k" is kilo, "N" is N but "n" is nano, and "Q" and "q" are both Q |
| Units.UnknownIsBase | src-tauri/src/unit.rs:76 | the empty string and unknown strings parse as Base |
| Units.UnitToString | src-tauri/src/unit.rs:81-101 | a prefix prints as at most one character, and only Base prints as the empty string |
| Units.UnitRoundTrip | src-tauri/src/unit.rs:56-101 | printing a unit and parsing it back gives the unit, except that a wavelength unit comes back as Lambda(1, 1) |
| Units.UnitScale | src-tauri/src/unit.rs:104-119 | every scale is non-zero; prefixes and pseudo-units have a positive scale; for Lambda(f, er) the scale times f·√er is 3e8 |
| Units.UnitUnscale | src-tauri/src/unit.rs:121-123 | the unscale of a unit times its scale is 1 |
| Units.ScaleUnscaleInverse | src-tauri/src/unit.rs:104-123 | scaling and unscaling are inverse in both orders |
| Units.PseudoUnitsAreOne | src-tauri/src/unit.rs:110-117 | Base, Q, K and N scale and unscale by 1 |
| Units.GetUnit | src-tauri/src/unit.rs:126-131 | the label is the prefix text followed by the quantity symbol, with "μ" in front for micro |
| Units.GetUnitExamples | src-tauri/src/unit.rs:126-131 | (femto, farad) is "fF", (micro, henry) "μH", (pico, henry) "pH", (base, ohm) "Ω", (giga, hertz) "GHz" |
| Units.GetUnitScale | src-tauri/src/unit.rs:134-140 | a parsed wavelength label scales to 3e8/(freq·√er); any other label scales by its parsed unit |
| Units.GetUnitScaleIgnoresFreq | src-tauri/src/unit.rs:134-140 | for labels that are not wavelengths, freq and er do not change the scale |
| Frequencies.ConvertedVal | src-tauri/src/frequency.rs:35-40 | the converted value in the new unit is the same frequency as the old value in the old unit; the same unit leaves it unchanged |
| Frequencies.SetFreqUnitAsWritten | src-tauri/src/frequency.rs:35-40 | the conversion as the source writes it; the same unit leaves the value unchanged |
| Frequencies.SetFreqUnitAsWrittenLosesFrequency | src-tauri/src/frequency.rs:35-40 | 280 GHz re-expressed in MHz becomes 0.28, which is 280 kHz, not the 280000 MHz the corrected conversion gives |
| Frequencies.Frequency.constructor | src-tauri/src/frequency.rs:13-15 | stores the value and the unit |
| Frequencies.Frequency.Freq | src-tauri/src/frequency.rs:17-19 | the frequency in hertz: scaling it by the unit gives back the stored value |
| Frequencies.Frequency.W | src-tauri/src/frequency.rs:42-44 | the angular frequency 2π·f |
| Frequencies.Frequency.Wavelength | src-tauri/src/frequency.rs:46-48 | the wavelength times f·√er is 3e8 |
| Frequencies.Frequency.SetFreq | src-tauri/src/frequency.rs:25-28 | stores the value given in the current unit and keeps the unit |
| Frequencies.Frequency.SetFreqScaled | src-tauri/src/frequency.rs:30-33 | stores the given value unscaled by the current unit, and keeps the unit |
| Frequencies.Frequency.SetFreqUnit | src-tauri/src/frequency.rs:35-40 | corrected: changes the unit and stores ConvertedVal, so that the frequency in hertz is the same as before, where the source stores SetFreqUnitAsWritten (see Left out and Findings) |
| RfUtils.ElementFromStr | src-tauri/src/rf_utils.rs:99-107 | exactly the strings of the four alias sets parse, each to its own quantity (c, cap, capacitor; l, ind, inductor; r, res, resistor; f, freq, frequency); every other string, the unit symbols included, is the error "Element not recognize" |
| RfUtils.ElementNamesDistinct | src-tauri/src/rf_utils.rs:101-104 | no alias is listed for two quantities |
| RfUtils.ElementToString | src-tauri/src/rf_utils.rs:110-119 | each quantity prints as a one- or two-character symbol |
| RfUtils.ElementSymbolDoesNotParse | src-tauri/src/rf_utils.rs:96-119 | no printed symbol ("F", "H", "Ω", "Hz") parses back, because the parser has no symbol aliases |
| RfUtils.ElementAliases | src-tauri/src/rf_utils.rs:100-104 | each of the three aliases of a quantity parses to that quantity |
| RfUtils.ComplexTypeFromStr | src-tauri/src/rf_utils.rs:130-137 | exactly ri, reim (ReIm), ma, magang (MagAng) and db, dbang (Db) parse, each to its own form; every other selector is the error "ComplexType not recognized" |
| RfUtils.ComplexTypeNamesDistinct | src-tauri/src/rf_utils.rs:132-134 | no alias is listed for two forms |
| RfUtils.GenComplex | src-tauri/src/rf_utils.rs:218-225 | succeeds exactly for the six known selectors; ri builds re + j·im, ma the polar number with the angle in degrees, db the polar number of magnitude 10^(re/20); every other selector is the error |
| RfUtils.UnitFromStr | src-tauri/src/rf_utils.rs:158-174 | never fails; for every unit other than Base, the string parses to that unit exactly when it is one of that unit's aliases, those of unit.rs without Q, K and N; it parses to Base exactly when it is nobody's alias |
| RfUtils.UnitNames | src-tauri/src/rf_utils.rs:160-171 | the alias sets of unit.rs for the units this file shares with it (no contract: used by UnitFromStr's) |
| RfUtils.ParsedLambda | src-tauri/src/rf_utils.rs:171 | a parsed wavelength unit is always Lambda(1, 1) |
| RfUtils.AsUnitsUnit | src-tauri/src/rf_utils.rs:140-152 | maps each unit of this file to the unit of unit.rs with the same name: never a pseudo-unit, and Base exactly for Base |
| RfUtils.SharedUnitNames | src-tauri/src/rf_utils.rs:158-174 | every unit has the same aliases in both files |
| RfUtils.UnitFromStrAgrees | src-tauri/src/rf_utils.rs:158-174 | both parsers give the same unit for every string, except that the strings unit.rs reads as Q, K or N are Base here |
| RfUtils.PseudoUnitsAreBase | src-tauri/src/rf_utils.rs:158-174 | Q, K and N, which unit.rs knows, are Base here |
| RfUtils.UnknownIsBase | src-tauri/src/rf_utils.rs:428-440 | the empty string, "google" and ".sfwe", which the test reads as Base, are Base |
| RfUtils.UnitToString | src-tauri/src/rf_utils.rs:177-194 | a prefix prints as at most one character, and only Base prints as the empty string |
| RfUtils.UnitRoundTrip | src-tauri/src/rf_utils.rs:155-194 | printing a unit and parsing it back gives the unit, except that a wavelength unit comes back as Lambda(1, 1) |
| RfUtils.UnitScale | src-tauri/src/rf_utils.rs:196-211 | every scale is non-zero; prefixes have a positive scale; for Lambda(f, er) the scale times f·√er is 3e8 |
| RfUtils.UnitUnscale | src-tauri/src/rf_utils.rs:213-215 | the unscale of a unit times its scale is 1 |
| RfUtils.ScaleUnscaleInverse | src-tauri/src/rf_utils.rs:254-260 | scaling and unscaling by one unit are inverse in both orders |
| RfUtils.ScaleTable | src-tauri/src/rf_utils.rs:617-664 | tera scales by 1e-12 and unscales by 1e12, milli by 1e3 and 1e-3, femto by 1e15 and 1e-15, and Base leaves the value unchanged |
| RfUtils.GetUnit | src-tauri/src/rf_utils.rs:227-232 | the label is the prefix text followed by the quantity symbol, with "μ" in front for micro |
| RfUtils.GetUnitExamples | src-tauri/src/rf_utils.rs:528-614 | (tera, capacitor) is "TF", (tera, inductor) "TH", (micro, resistor) "μΩ", (kilo, frequency) "kHz", (base, capacitor) "F", (base, frequency) "Hz" |
| RfUtils.GetUnitScale | src-tauri/src/rf_utils.rs:235-241 | a parsed wavelength label scales to 3e8/(freq·√er); any other label scales by its parsed unit |
| RfUtils.GetC64Inv | src-tauri/src/rf_utils.rs:244-252 | the reciprocal: its product with re + j·im is 1 |
| RfUtils.CalcGamma | src-tauri/src/rf_utils.rs:262-266 | Γ·(z + z0) = z − z0 |
| RfUtils.CalcZ | src-tauri/src/rf_utils.rs:286-288 | z·(1 − Γ) = z0·(1 + Γ) |
| RfUtils.ZOfGamma | src-tauri/src/rf_utils.rs:262-288 | calc_z undoes calc_gamma: the impedance of an impedance's reflection coefficient is that impedance |
| RfUtils.GammaOfZ | src-tauri/src/rf_utils.rs:262-288 | calc_gamma undoes calc_z: the reflection coefficient of a coefficient's impedance is that coefficient |
| RfUtils.CalcZFromRc | src-tauri/src/rf_utils.rs:290-302 | the impedance of a parallel R and C: its product with 1/R + jωC is 1 |
| RfUtils.CalcGammaFromRc | src-tauri/src/rf_utils.rs:268-284 | the reflection coefficient of the impedance calc_z_from_rc gives |
| RfUtils.RcOfAdmittance | src-tauri/src/rf_utils.rs:304-320 | from an admittance, R is the reciprocal of its real part and ω·C its imaginary part, in the given units |
| RfUtils.ResistanceOf | src-tauri/src/rf_utils.rs:314 | the resistance read off a conductance g, times g scaled into the resistance unit, is 1 |
| RfUtils.CapacitanceOf | src-tauri/src/rf_utils.rs:315-318 | the capacitance read off a susceptance b, in base units and times 2πf, is b again |
| RfUtils.RcRoundTrip | src-tauri/src/rf_utils.rs:290-320 | calc_rc of the impedance calc_z_from_rc builds gives back R and C |
| RfUtils.RcOfOwnAdmittance | src-tauri/src/rf_utils.rs:304-320 | R and C are read back from the admittance 1/R + jωC |
| RfUtils.ZAndGamma | src-tauri/src/rf_utils.rs:333-358 | the z selector takes the input as the impedance, ri takes it as the reflection coefficient, and an unknown selector gives (1, 1) |
| RfUtils.ZAndGammaConsistent | src-tauri/src/rf_utils.rs:333-358 | for every known selector the reflection coefficient is the impedance's calc_gamma |
| RfUtils.CalcImpedance | src-tauri/src/rf_utils.rs:323-369 | the response carries the selected z and Γ (both 1 for an unknown selector) and the magnitude of Γ |
| RfUtils.CalcImpedanceRc | src-tauri/src/rf_utils.rs:323-369 | with the rc selector the response's R and C are the inputs |
| RfUtilsBak.UnitFromStr | src-tauri/src/rf_utils_bak.rs:80-93 | a string parses to a prefix exactly when it is one of that arm's aliases (UnitNames), and to Base exactly when it is an alias of no arm; "", "google" and ".sfwe" are Base, "u", "μF" and "micro" are micro |
| RfUtilsBak.UnitNames | src-tauri/src/rf_utils_bak.rs:82-90 | the alias set of each prefix as listed: tera T THz thz, giga G GHz ghz GΩ, … femto f fΩ fF fH; Base has none (no contract: used by UnitFromStr's) |
| RfUtilsBak.LargeNamesDistinct | src-tauri/src/rf_utils_bak.rs:82-86 | the giga, mega, kilo and milli aliases are not listed for an earlier arm |
| RfUtilsBak.MicroNanoNamesDistinct | src-tauri/src/rf_utils_bak.rs:82-88 | the micro and nano aliases are not listed for an earlier arm |
| RfUtilsBak.PicoFemtoNamesDistinct | src-tauri/src/rf_utils_bak.rs:82-90 | the pico and femto aliases are not listed for an earlier arm |
| RfUtilsBak.UnitToString | src-tauri/src/rf_utils_bak.rs:97-110 | a prefix prints as at most one character, and only Base prints as the empty string |
| RfUtilsBak.UnitRoundTrip | src-tauri/src/rf_utils_bak.rs:80-110 | printing a unit and parsing it back gives the same unit |
| RfUtilsBak.UnitScale | src-tauri/src/rf_utils_bak.rs:114-127 | every scale is positive |
| RfUtilsBak.UnitUnscale | src-tauri/src/rf_utils_bak.rs:129-142 | every unscale is positive |
| RfUtilsBak.ScaleTablesReciprocal | src-tauri/src/rf_utils_bak.rs:114-142 | the two tables are reciprocal: scale times unscale is 1 for every unit |
| RfUtilsBak.GetMult | src-tauri/src/rf_utils_bak.rs:154-167 | the multiplier of a label is the scale of the unit the label parses to |
| RfUtilsBak.GetMultDefault | src-tauri/src/rf_utils_bak.rs:154-167 | the multiplier is 1 exactly when the label parses to Base |
| RfUtilsBak.GetUnit | src-tauri/src/rf_utils_bak.rs:169-232 | the label is the prefix of the parsed unit followed by the quantity symbol |
| RfUtilsBak.GetUnitExamples | src-tauri/src/rf_utils_bak.rs:269-350 | "thz" with capacitor is "TF", "μH" with inductor "μH", "kΩ" with frequency "kHz", an unknown label with resistor "Ω", "" with frequency "Hz", "u" with capacitor "μF" |
| RfUtilsBak.ScaleVal | src-tauri/src/rf_utils_bak.rs:234-236 | the value times the scale of the parsed label |
| RfUtilsBak.UnscaleVal | src-tauri/src/rf_utils_bak.rs:238-240 | the value times the unscale of the parsed label |
| RfUtilsBak.ScaleUnscaleInverse | src-tauri/src/rf_utils_bak.rs:234-240 | scaling and unscaling by one label are inverse in both orders |
| RfUtilsBak.ScaleExamples | src-tauri/src/rf_utils_bak.rs:353-415 | "thz" scales by 1e-12 and unscales by 1e12, "μF" by 1e6 and 1e-6, an unknown label by 1 |
| Smith.ElementFromStr | src-tauri/src/smith.rs:31-49 | for every tag, a string parses to it exactly when it is one of that tag's aliases (ElementNames); a string in no alias set is the error "Element not recognize", and nothing else is |
| Smith.ElementNames | src-tauri/src/smith.rs:33-46 | the alias set of each of the twelve tags as listed (no contract: used by ElementFromStr's) |
| Smith.CapInductorNamesDistinct | src-tauri/src/smith.rs:33-36 | no capacitor or inductor alias is listed for an earlier tag |
| Smith.ResistorLineNamesDistinct | src-tauri/src/smith.rs:33-39 | no resistor or line alias is listed for an earlier tag |
| Smith.StubTransformerNamesDistinct | src-tauri/src/smith.rs:33-42 | no stub or transformer alias is listed for an earlier tag |
| Smith.LumpedCustomNamesDistinct | src-tauri/src/smith.rs:33-46 | no RLC or custom alias is listed for an earlier tag |
| Smith.ElementToString | src-tauri/src/smith.rs:53-68 | every element prints as a name of at least three characters |
| Smith.ElementRoundTrip | src-tauri/src/smith.rs:31-68 | printing an element and parsing the name gives the element back |
| Smith.ElementToStringInjective | src-tauri/src/smith.rs:53-68 | two elements with the same printed name are the same element |
| Smith.ElementUnknown | src-tauri/src/smith.rs:1086-1151 | the empty string, "cap" and "SC" are not element names |
| Smith.ElementNearMissUnknown | src-tauri/src/smith.rs:1086-1151 | "custom_Z" and "open" are not element names |
| Smith.Chart | src-tauri/src/smith.rs:97-101 | the chart point Γ of z (of 1/z when rotated) satisfies Γ·(z + 1) = z − 1 |
| Smith.ChartNeverOne | src-tauri/src/smith.rs:97-101 | no finite impedance lands on the point 1 of the chart |
| Smith.ChartRotate | src-tauri/src/smith.rs:97-101 | rotating the chart (admittance view) maps every point to its negative |
| Smith.FindSmithCoord | src-tauri/src/smith.rs:87-109 | always Ok with two coordinates g satisfying (w + 1)·g = w − 1, where w is re + j·im (im read as 0 when not finite) or its reciprocal when rotate holds; the result is never the point (1, 0) |
| Smith.AddValue | src-tauri/src/smith.rs:216-219 | adding a finite number to an f64 value keeps it finite exactly when it was finite |
| Smith.ArcSmithPoints | src-tauri/src/smith.rs:124-268 | both coordinate vectors have resolution + 1 entries, entry i is the chart point of sample i, the end point is the last entry, the start point is the chart point of (x1, y1), and the inputs are echoed back |
| Smith.ArcStep | src-tauri/src/smith.rs:166-210 | one loop step: the chart point of the sample, through the line formula for a line and the stub admittance for a stub |
| Smith.SampleCoordinates | src-tauri/src/smith.rs:166-210 | each sample is find_smith_coord of the line's input impedance, of the stub-shifted admittance, or of the point interpolated between the two ends |
| Smith.ArcFirstSample | src-tauri/src/smith.rs:151-210 | for a plain arc the first sample is the start point |
| Smith.ArcLastSample | src-tauri/src/smith.rs:196-210 | for a plain arc the last sample is the chart point of (x2, y2) |
| SmithRi.UnscaleBase | src-tauri/src/unit.rs:76 | the empty unit string leaves a value unscaled |
| SmithRi.FirstAbove | src-tauri/src/smith.rs:433-442 | the row the customZ search settles on: every earlier row is at or below f; it is above f when some row is; it is the last row when none is |
| SmithRi.CustomZIndex | src-tauri/src/smith.rs:433-442 | the search loop finds that row |
| SmithRi.LerpBetween | src-tauri/src/smith.rs:447-452 | an interpolation fraction in [0, 1] keeps the value between its two ends |
| SmithRi.CustomZAsWritten | src-tauri/src/smith.rs:432-455 | the lookup as written: the found row's value, unchanged, whenever the found row is the first or the last row |
| SmithRi.CustomZLastIntervalNotInterpolated | src-tauri/src/smith.rs:443 | at 2.5 inside the table's last interval (2, 3) the as-written lookup answers 20, the last row, instead of interpolating |
| SmithRi.CustomZ | src-tauri/src/smith.rs:432-455 | the corrected lookup: outside the interpolated case it is the found row's value |
| SmithRi.CustomZBracketed | src-tauri/src/smith.rs:432-455 | when the table brackets f, the corrected lookup interpolates between the two rows around f, last interval included, and each part lies between theirs |
| SmithRi.CustomZAgreesElsewhere | src-tauri/src/smith.rs:432-455 | the two lookups agree except when the row found is the last one |
| SmithRi.TagOf | src-tauri/src/smith.rs:306-456 | the evaluators recognise exactly their tags; any other is the error "element not recognized" |
| SmithRi.CapQuality | src-tauri/src/smith.rs:321-343 | in Q mode a capacitor's reactance over its resistance is the first value |
| SmithRi.IndQuality | src-tauri/src/smith.rs:344-361 | in Q mode an inductor's reactance over its resistance is the first value |
| SmithRi.LosslessWithoutFirstValue | src-tauri/src/smith.rs:321-361 | a first value of 0 makes a capacitor or inductor lossless in either mode |
| SmithRi.Coupling | src-tauri/src/smith.rs:369-388 | the transformer's shunt leg is the coupling times the primary inductance: k·l1 in K mode, the mutual inductance otherwise |
| SmithRi.TeeSplit | src-tauri/src/smith.rs:389-395 | the tee legs split the windings: the primary leg plus the shunt leg is l1, and the secondary leg keeps the ratio l2/l1 |
| SmithRi.TeeResistanceRatio | src-tauri/src/smith.rs:389-393 | in Q mode the winding resistances keep the turns ratio, r2·l1 = r1·l2 |
| SmithRi.CalcRi | src-tauri/src/smith.rs:271-463 | an unknown tag is the error "element not recognized"; a known one gives the three values of RiValue for its arm. Uses the corrected customZ lookup (see Left out) |
| SmithRi.RiValue | src-tauri/src/smith.rs:306-455 | the black box, lumped and customZ arms are their impedance in ohms (BlackBoxZ, LumpedZ at ω = 2πf, TableZ) over z0, as [re, im, 0]; a line or stub is [0, 0, unscaled length]; the transformer is its three tee legs. Uses the corrected customZ lookup (see Left out) |
| SmithRi.BlackBoxZ | src-tauri/src/smith.rs:307-313 | the black box's impedance, halved when differential (no contract: a definition RiValue and SeriesZ are stated with) |
| SmithRi.TableZ | src-tauri/src/smith.rs:432-455 | the table's impedance at f, from the corrected lookup CustomZ (no contract: a definition) |
| SmithRi.LumpedZ | src-tauri/src/smith.rs:314-424 | the lumped arms' impedance in ohms at ω (no contract; LumpedResistor … LumpedRl relate each arm to the element models) |
| SmithRi.UnscaleZero | src-tauri/src/rf_utils.rs:258-260 | a zero value stays zero whatever its unit |
| SmithRi.LumpedResistor | src-tauri/src/smith.rs:314-320 | the resistor arms are the unscaled resistance, real |
| SmithRi.LumpedCapacitor | src-tauri/src/smith.rs:321-343 | the capacitor arms are Capacitors.LossyCapacitor of capacitor.rs for the same values, Q mode when the first unit is "Q" |
| SmithRi.LumpedInductor | src-tauri/src/smith.rs:344-361 | the inductor arms are Inductors.LossyInductor of inductor.rs for the same values |
| SmithRi.LumpedRlc | src-tauri/src/smith.rs:402-409 | the rlc arm is Rlcs.SeriesRlc of rlc.rs with its capacitor |
| SmithRi.LumpedRl | src-tauri/src/smith.rs:410-416 | the rl arm is Rlcs.SeriesRlc of rlc.rs without a capacitor |
| SmithRi.CapZIsLossy | src-tauri/src/element/capacitor.rs:148-160 | the arm's capacitor formula is the capacitor model's whenever the resistance vanishes with the first value |
| SmithRi.IndZIsLossy | src-tauri/src/element/inductor.rs:148-160 | the arm's inductor formula is the inductor model's under the same condition |
| SmithRi.RlcZIsSeries | src-tauri/src/element/rlc.rs:187-200 | the arm's RLC formula is the series branch of rlc.rs |
| SmithRi.CalcRiDiffHalves | src-tauri/src/smith.rs:307-313 | a differential black box reports half the normalised resistance and reactance of a single-ended one |
| SmithRi.CalcRiOrientationBlind | src-tauri/src/smith.rs:314-361 | calc_ri gives a series resistor, capacitor or inductor the same values as its shunt form |
| SmithRi.Norm3KeepsRatio | src-tauri/src/smith.rs:314-361 | normalising by z0 keeps the ratio of reactance to resistance |
| SmithRi.CalcRiLine | src-tauri/src/smith.rs:425-431 | for a line or stub calc_ri reports only the unscaled length |
| SmithRi.Shunt | src-tauri/src/smith.rs:525-530 | two impedances in parallel: the admittance of the result is the sum of theirs |
| SmithRi.ShuntSymmetric | src-tauri/src/smith.rs:525-530 | the parallel combination does not depend on the order of the branches |
| SmithRi.LineTransformSolves | src-tauri/src/smith.rs:725-733 | the impedance z seen through a line solves (line_z0 + j·zin·t)·z = line_z0·(zin + j·line_z0·t) with t = tan βl (LineEquation) |
| SmithRi.LineZeroLength | src-tauri/src/smith.rs:725-733 | a line of zero electrical length passes the input impedance through |
| SmithRi.LineMatched | src-tauri/src/smith.rs:725-733 | a line terminated in its own impedance shows that impedance at any length |
| SmithRi.CalcRiNew | src-tauri/src/smith.rs:466-784 | an unknown tag is the error "element not recognized"; a known one gives the two values of RiNewValue for its arm. Uses the corrected customZ lookup (see Left out) |
| SmithRi.RiNewValue | src-tauri/src/smith.rs:512-777 | a series element shifts (rin, xin) by its impedance SeriesZ over z0; a shunt element gives the parallel combination of zin and ShuntZ, normalised; into a short the transformer is z_cascade of its tee; a zero-length or matched line returns (rin, xin). Uses the corrected customZ lookup (see Left out) |
| SmithRi.SeriesValue | src-tauri/src/smith.rs:512-776 | a series element shifts the normalised input by its own impedance SeriesZ over z0, the table value from the corrected lookup (see Left out) |
| SmithRi.SeriesZ | src-tauri/src/smith.rs:512-766 | the series elements' impedance in ohms: black box, LumpedZ, table value (no contract: a definition RiNewValue is stated with) |
| SmithRi.ShuntZ | src-tauri/src/smith.rs:524-774 | the shunt elements' impedance in ohms: LumpedZ, and the open and shorted stubs (no contract: a definition) |
| SmithRi.ShuntValue | src-tauri/src/smith.rs:512-776 | for a shunt element the result, back in ohms, has the admittance of the input plus that of the element |
| SmithRi.ShuntOut | src-tauri/src/smith.rs:525-530 | the shunt formula gives the parallel combination, normalised |
| SmithRi.XfmrValue | src-tauri/src/smith.rs:624-688 | two values that, back in ohms, are zin + z1‖z2 + z3 for the arm's legs (TeeSums, with z1‖z2 the parallel combination whose admittance is the sum of the legs'); into a short (zin = 0) this is z_cascade of transformer.rs for those legs |
| SmithRi.SumOut | src-tauri/src/smith.rs:670-686 | normalising zin + z1‖z2 + z3 by z0 and scaling back gives that sum |
| SmithRi.ShortOut | src-tauri/src/element/transformer.rs:218-221 | normalising the arm's sum into a short gives the tee cascade of its legs, normalised |
| SmithRi.ShortedTee | src-tauri/src/element/transformer.rs:218-221 | the arm's (z1 ∥ z2) + z3 into a short is z_cascade(0) of the tee (z1, z2, z3) |
| SmithRi.XfmrLegsMatchTee | src-tauri/src/element/transformer.rs:188-216 | with a coupling coefficient and equal windings, the arm's tee legs and resistances are those z_tee builds for the same values |
| SmithRi.EqualWindingsTee | src-tauri/src/element/transformer.rs:188-216 | the tee of equal windings l1 coupled by k is Transformers.TeeOf for them |
| SmithRi.XfmrLegsDifferOutsideK | src-tauri/src/element/transformer.rs:188-216 | outside coupling-coefficient mode the arm takes the mutual inductance out of the primary leg, so its primary leg differs from z_tee's whenever ω·mutual ≠ 0 |
| SmithRi.MutualLeftInPrimary | src-tauri/src/smith.rs:382-388 | with k = m/l1 the arm's primary leg (1 − k)·l1 is l1 − m, which differs from the whole winding z_tee keeps in its primary leg whenever ω·m ≠ 0 |
| SmithRi.LineValue | src-tauri/src/smith.rs:725-733 | the line arm gives two values, and gives back the input when the line has zero electrical length or is terminated in its own impedance |
| SmithRi.LineUnchanged | src-tauri/src/smith.rs:725-733 | a zero electrical length or a matched load leaves the impedance seen unchanged |
| SmithRi.SeriesShifts | src-tauri/src/smith.rs:510-774 | adding an element in series shifts the normalised input by the element's normalised impedance |
| SmithRi.OutOfInput | src-tauri/src/smith.rs:510 | normalising zin gives back (rin, xin) |
| SmithRi.CalcRiNewAgreesWithCalcRi | src-tauri/src/smith.rs:306-777 | into a zero input, at a frequency in hertz, a series element gives the normalised impedance calc_ri reports for it |
| SmithRi.CalcRiCustom | src-tauri/src/smith.rs:962-1008 | the table value at the unscaled frequency, normalised by z0, from the corrected lookup CustomZ (see Left out and Findings); the interpolation mode is not read |
| SmithRi.CalcRiTline | src-tauri/src/smith.rs:1011-1070 | only tl, so and ss are recognised, anything else is the error "element not recognized"; betal = w·√er·len; back in ohms, tl is the z solving the line equation (line_z0 + j·50·tan βl)·z = line_z0·(50 + j·line_z0·tan βl) of a 50-ohm load, ss is the reactance j·line_z0·tan βl of a shorted stub, so is −j·line_z0·tan(1/βl) as written; stubs have no resistance |
| SmithRi.LoadedLineOut | src-tauri/src/smith.rs:1047-1052 | two values that, back in ohms, solve the line equation for the 50-ohm load |
| SmithRi.ReactanceOut | src-tauri/src/smith.rs:1053-1062 | two values with no resistance that, back in ohms, are the given reactance |
| SmithRi.OpenArmCotangent | src-tauri/src/smith.rs:1053-1057 | the so arm equals the open stub reactance −line_z0/tan βl of openstub.rs exactly when tan(1/βl)·tan βl = 1 |
| SmithRi.CalcRiTlineFixedLoad | src-tauri/src/smith.rs:1011-1070 | the line looks into a fixed 50-ohm load: at zero electrical length, or on a 50-ohm line, it reports 50/z0 |
| SmithRi.FixedLoad | src-tauri/src/smith.rs:1011-1070 | a fixed 50-ohm load is seen unchanged through a 50-ohm line or a line of zero electrical length |
| Elements.Rotate | src-tauri/src/element.rs:26-33 | the rotate flag is set exactly for a shunt element |
| Elements.ZNorm | src-tauri/src/element.rs:51-53 | the normalised impedance times z0 is the impedance |
| Elements.SweepArc | src-tauri/src/element/capacitor.rs:177-183 | the loop fills both vectors with the chart points of the npts + 1 sweep points from start to end |
| Elements.SweptEnds | src-tauri/src/element/capacitor.rs:177-183 | the first sample is the chart point of the start and the last that of the end |
| Elements.SweepPointEnds | src-tauri/src/element/capacitor.rs:178-179 | the linear sweep starts at the start point and ends at the end point |
| Elements.Ends | src-tauri/src/element/capacitor.rs:173-176 | in series the sweep runs from zin to zin plus the element's normalised impedance; in shunt it runs from the admittance of zin to that plus the element's admittance |
| Elements.LumpedArc | src-tauri/src/element/capacitor.rs:162-186 | the endpoints the orientation picks are reported, and the samples are their sweep plotted with rotate set for shunt |
| Elements.ChartOfReal | src-tauri/src/smith.rs:111-121 | the chart point of a real impedance lies on the real axis |
| Elements.SweptReal | src-tauri/src/element/capacitor.rs:177-183 | a sweep between two real points has every y sample 0 |
| Elements.EndsOfReal | src-tauri/src/element/capacitor.rs:173-176 | a real input and a real element give real endpoints, in either orientation |
| Capacitors.LossyCapacitor | src-tauri/src/element/capacitor.rs:148-160 | the reactance is −1/(ωC); the resistance is the stored one, or in Q mode the one whose quality factor −x/r is the stored Q, none for Q = 0 |
| Capacitors.Capacitor.constructor | src-tauri/src/element/capacitor.rs:23-41 | every field as given |
| Capacitors.Capacitor.Default | src-tauri/src/element/capacitor.rs:114-124 | a lossless 20 fF capacitor in series, with no tolerances |
| Capacitors.Capacitor.Vals | src-tauri/src/element/capacitor.rs:132-134 | the values line up with the labels: resistance, then capacitance |
| Capacitors.Capacitor.UnitList | src-tauri/src/element/capacitor.rs:136-138 | the units line up with the labels |
| Capacitors.Capacitor.Tols | src-tauri/src/element/capacitor.rs:140-142 | the tolerances line up with the labels |
| Capacitors.Capacitor.SetRes | src-tauri/src/element/capacitor.rs:67-70 | changes the resistance and nothing else |
| Capacitors.Capacitor.SetCap | src-tauri/src/element/capacitor.rs:72-75 | changes the capacitance and nothing else |
| Capacitors.Capacitor.SetResUnscaled | src-tauri/src/element/capacitor.rs:77-80 | stores a base-unit resistance in the current unit, so that unscaling the stored value gives it back |
| Capacitors.Capacitor.SetCapUnscaled | src-tauri/src/element/capacitor.rs:82-85 | stores a base-unit capacitance in the current unit, so that unscaling the stored value gives it back |
| Capacitors.Capacitor.SetResUnit | src-tauri/src/element/capacitor.rs:87-90 | changes the resistance unit and nothing else |
| Capacitors.Capacitor.SetCapUnit | src-tauri/src/element/capacitor.rs:92-95 | changes the capacitance unit and nothing else |
| Capacitors.Capacitor.SetResTol | src-tauri/src/element/capacitor.rs:97-100 | changes the resistance tolerance and nothing else |
| Capacitors.Capacitor.SetCapTol | src-tauri/src/element/capacitor.rs:102-105 | changes the capacitance tolerance and nothing else |
| Capacitors.Capacitor.SetOrientation | src-tauri/src/element/capacitor.rs:107-110 | changes the orientation and nothing else |
| Capacitors.Capacitor.Z | src-tauri/src/element/capacitor.rs:148-160 | z(f) is LossyCapacitor of the stored values at ω of freq (no contract; LossyCapacitor states the formula) |
| Capacitors.Capacitor.CalcArc | src-tauri/src/element/capacitor.rs:162-186 | reports the endpoints its orientation picks for the normalised impedance z, and plots their sweep with rotate set for shunt |
| Inductors.LossyInductor | src-tauri/src/element/inductor.rs:148-160 | the reactance is ωL; the resistance is the stored one, or in Q mode the one whose quality factor x/r is the stored Q, none for Q = 0 |
| Inductors.Inductor.constructor | src-tauri/src/element/inductor.rs:23-41 | every field as given |
| Inductors.Inductor.Default | src-tauri/src/element/inductor.rs:114-124 | a lossless 10 pH inductor in series, with no tolerances |
| Inductors.Inductor.Vals | src-tauri/src/element/inductor.rs:132-134 | the values line up with the labels: resistance, then inductance |
| Inductors.Inductor.UnitList | src-tauri/src/element/inductor.rs:136-138 | the units line up with the labels |
| Inductors.Inductor.Tols | src-tauri/src/element/inductor.rs:140-142 | the tolerances line up with the labels |
| Inductors.Inductor.SetRes | src-tauri/src/element/inductor.rs:67-70 | changes the resistance and nothing else |
| Inductors.Inductor.SetInd | src-tauri/src/element/inductor.rs:72-75 | changes the inductance and nothing else |
| Inductors.Inductor.SetResUnscaled | src-tauri/src/element/inductor.rs:77-80 | stores a base-unit resistance in the current unit, so that unscaling the stored value gives it back |
| Inductors.Inductor.SetIndUnscaled | src-tauri/src/element/inductor.rs:82-85 | stores a base-unit inductance in the current unit, so that unscaling the stored value gives it back |
| Inductors.Inductor.SetResUnit | src-tauri/src/element/inductor.rs:87-90 | changes the resistance unit and nothing else |
| Inductors.Inductor.SetIndUnit | src-tauri/src/element/inductor.rs:92-95 | changes the inductance unit and nothing else |
| Inductors.Inductor.SetResTol | src-tauri/src/element/inductor.rs:97-100 | changes the resistance tolerance and nothing else |
| Inductors.Inductor.SetIndTol | src-tauri/src/element/inductor.rs:102-105 | changes the inductance tolerance and nothing else |
| Inductors.Inductor.SetOrientation | src-tauri/src/element/inductor.rs:107-110 | changes the orientation and nothing else |
| Inductors.Inductor.Z | src-tauri/src/element/inductor.rs:148-160 | z(f) is LossyInductor of the stored values (no contract; LossyInductor states the formula) |
| Inductors.Inductor.CalcArc | src-tauri/src/element/inductor.rs:162-186 | reports the endpoints its orientation picks for the normalised impedance z, and plots their sweep with rotate set for shunt |
| Resistors.Resistor.constructor | src-tauri/src/element/resistor.rs:20-27 | every field as given |
| Resistors.Resistor.Default | src-tauri/src/element/resistor.rs:68-75 | 1 ohm in series, with no tolerance |
| Resistors.Resistor.Vals | src-tauri/src/element/resistor.rs:83-85 | the values line up with the labels: the resistance |
| Resistors.Resistor.UnitList | src-tauri/src/element/resistor.rs:87-89 | the units line up with the labels |
| Resistors.Resistor.Tols | src-tauri/src/element/resistor.rs:91-93 | the tolerances line up with the labels |
| Resistors.Resistor.SetRes | src-tauri/src/element/resistor.rs:41-44 | changes the resistance and nothing else |
| Resistors.Resistor.SetResUnscaled | src-tauri/src/element/resistor.rs:46-49 | stores a base-unit resistance in the current unit, so that unscaling the stored value gives it back |
| Resistors.Resistor.SetResUnit | src-tauri/src/element/resistor.rs:51-54 | changes the unit and nothing else |
| Resistors.Resistor.SetResTol | src-tauri/src/element/resistor.rs:56-59 | changes the tolerance and nothing else |
| Resistors.Resistor.SetOrientation | src-tauri/src/element/resistor.rs:61-64 | changes the orientation and nothing else |
| Resistors.Resistor.Z | src-tauri/src/element/resistor.rs:99-101 | no reactance, and a resistance that scales back to the stored value |
| Resistors.Resistor.CalcArc | src-tauri/src/element/resistor.rs:103-127 | reports the endpoints its orientation picks for the normalised impedance, and plots their sweep with rotate set for shunt |
| Resistors.ZIgnoresFrequency | src-tauri/src/element/resistor.rs:99-101 | the impedance is the same at every frequency |
| Resistors.RealArc | src-tauri/src/element/resistor.rs:103-127 | from a real input, a resistor's arc stays on the real axis in either orientation |
| Resistors.ResistorZNormReal | src-tauri/src/element/resistor.rs:99-101 | a resistor's normalised impedance is real |
| Rlcs.SeriesRlc | src-tauri/src/element/rlc.rs:187-200 | the resistance is R; with no capacitor the branch is a lossy inductor; otherwise the reactance is ωL − 1/(ωC) |
| Rlcs.Rlc.constructor | src-tauri/src/element/rlc.rs:26-50 | every field as given |
| Rlcs.Rlc.Default | src-tauri/src/element/rlc.rs:150-163 | 1 ohm, 10 pH and 20 fF in shunt, with no tolerances |
| Rlcs.Rlc.Vals | src-tauri/src/element/rlc.rs:171-173 | the values line up with the labels: resistance, inductance, capacitance |
| Rlcs.Rlc.UnitList | src-tauri/src/element/rlc.rs:175-177 | the units line up with the labels |
| Rlcs.Rlc.Tols | src-tauri/src/element/rlc.rs:179-181 | the tolerances line up with the labels |
| Rlcs.Rlc.SetRes | src-tauri/src/element/rlc.rs:88-91 | changes the resistance and nothing else |
| Rlcs.Rlc.SetInd | src-tauri/src/element/rlc.rs:93-96 | changes the inductance and nothing else |
| Rlcs.Rlc.SetCap | src-tauri/src/element/rlc.rs:98-101 | changes the capacitance and nothing else |
| Rlcs.Rlc.SetResUnscaled | src-tauri/src/element/rlc.rs:103-106 | stores a base-unit resistance in the current unit, so that unscaling it gives it back |
| Rlcs.Rlc.SetIndUnscaled | src-tauri/src/element/rlc.rs:108-111 | stores a base-unit inductance in the current unit, so that unscaling it gives it back |
| Rlcs.Rlc.SetCapUnscaled | src-tauri/src/element/rlc.rs:113-116 | stores a base-unit capacitance in the current unit, so that unscaling it gives it back |
| Rlcs.Rlc.SetResUnit | src-tauri/src/element/rlc.rs:118-121 | changes the resistance unit and nothing else |
| Rlcs.Rlc.SetIndUnit | src-tauri/src/element/rlc.rs:123-126 | changes the inductance unit and nothing else |
| Rlcs.Rlc.SetCapUnit | src-tauri/src/element/rlc.rs:128-131 | changes the capacitance unit and nothing else |
| Rlcs.Rlc.SetResTol | src-tauri/src/element/rlc.rs:133-136 | changes the resistance tolerance and nothing else |
| Rlcs.Rlc.SetIndTol | src-tauri/src/element/rlc.rs:138-141 | changes the inductance tolerance and nothing else |
| Rlcs.Rlc.SetCapTol | src-tauri/src/element/rlc.rs:143-146 | changes the capacitance tolerance and nothing else |
| Rlcs.Rlc.Z | src-tauri/src/element/rlc.rs:187-200 | z(f) is SeriesRlc of the stored values, without a capacitor when it is 0 (no contract; SeriesRlc states the formula) |
| Rlcs.Rlc.CalcArc | src-tauri/src/element/rlc.rs:202-226 | reports the endpoints its orientation picks for the normalised impedance, and plots their sweep with rotate set for shunt |
| BlackBoxes.BlackBox.constructor | src-tauri/src/element/blackbox.rs:20-27 | the impedance, reference and tolerance as given, in series |
| BlackBoxes.BlackBox.FromRi | src-tauri/src/element/blackbox.rs:29-36 | the impedance built from its two parts, in series |
| BlackBoxes.BlackBox.Default | src-tauri/src/element/blackbox.rs:72-79 | 50 ohms on a 50-ohm reference, with no tolerance, in series |
| BlackBoxes.BlackBox.SetRes | src-tauri/src/element/blackbox.rs:50-53 | a new resistance; the reactance and everything else stay |
| BlackBoxes.BlackBox.SetReac | src-tauri/src/element/blackbox.rs:55-58 | a new reactance; the resistance and everything else stay |
| BlackBoxes.BlackBox.SetZ | src-tauri/src/element/blackbox.rs:60-63 | replaces the impedance and nothing else |
| BlackBoxes.BlackBox.SetTol | src-tauri/src/element/blackbox.rs:65-68 | replaces the tolerance and nothing else |
| BlackBoxes.BlackBox.Vals | src-tauri/src/element/blackbox.rs:87-89 | the values line up with the labels: resistance, then reactance |
| BlackBoxes.BlackBox.UnitList | src-tauri/src/element/blackbox.rs:91-93 | both parts are in plain ohms |
| BlackBoxes.BlackBox.Tols | src-tauri/src/element/blackbox.rs:95-97 | a single tolerance for the whole impedance, one entry shorter than the labels |
| BlackBoxes.BlackBox.Z | src-tauri/src/element/blackbox.rs:111-113 | the stored resistance and reactance, whatever the frequency |
| BlackBoxes.BlackBox.R | src-tauri/src/element/blackbox.rs:103-105 | the real part of the impedance |
| BlackBoxes.BlackBox.X | src-tauri/src/element/blackbox.rs:107-109 | the imaginary part of the impedance |
| BlackBoxes.BlackBox.CalcArc | src-tauri/src/element/blackbox.rs:115-129 | one sample, the chart point of the impedance normalised by the box's own reference, whatever npts is; start and end are both that point converted back with the caller's reference |
| BlackBoxes.ReportedPointUsesOwnReference | src-tauri/src/element/blackbox.rs:115-129 | the reported point is the impedance normalised by the box's own reference, not by the caller's when that reference differs |
| BlackBoxes.OtherReferenceDiffers | src-tauri/src/element/blackbox.rs:115-129 | normalising a non-zero impedance by two different references gives two different points |
| Transformers.Cascade | src-tauri/src/element/transformer.rs:218-221 | the admittance seen after the primary leg is that of zin plus the primary leg, plus that of the shunt leg: an impedance through the tee |
| Transformers.WindingRes | src-tauri/src/element/transformer.rs:203-209 | a winding resistance r with r·Q = ωL in Q mode, and the resistance as given otherwise |
| Transformers.TeeOf | src-tauri/src/element/transformer.rs:188-216 | the shunt leg is jωM; with a coupling coefficient each winding's reactance is its series leg plus the shunt leg, otherwise the series legs carry the whole windings; the leg resistances follow the Q mode |
| Transformers.KModeAgree | src-tauri/src/element/transformer.rs:188-296 | with a coupling coefficient the legs z builds are those z_tee builds |
| Transformers.OtherModesDisagree | src-tauri/src/element/transformer.rs:188-296 | without one, z leaves a non-zero primary reactance out of the primary leg that z_tee puts in |
| Transformers.Transformer.constructor | src-tauri/src/element/transformer.rs:29-58 | values, units and tolerances as given, in series |
| Transformers.Transformer.Default | src-tauri/src/element/transformer.rs:229-245 | lossless 20 pH windings with coupling coefficient 0.5, no tolerances, in series |
| Transformers.Transformer.Vals | src-tauri/src/element/transformer.rs:253-255 | the values line up with the labels: res, indp, inds, m |
| Transformers.Transformer.UnitList | src-tauri/src/element/transformer.rs:257-259 | the units line up with the labels |
| Transformers.Transformer.Tols | src-tauri/src/element/transformer.rs:261-263 | the tolerances line up with the labels |
| Transformers.Transformer.SetRes | src-tauri/src/element/transformer.rs:108-111 | changes the resistance and nothing else |
| Transformers.Transformer.SetIndp | src-tauri/src/element/transformer.rs:113-116 | changes the primary inductance and nothing else |
| Transformers.Transformer.SetInds | src-tauri/src/element/transformer.rs:118-121 | changes the secondary inductance and nothing else |
| Transformers.Transformer.SetM | src-tauri/src/element/transformer.rs:123-126 | changes the coupling and nothing else |
| Transformers.Transformer.SetResUnscaled | src-tauri/src/element/transformer.rs:128-131 | stores a base-unit resistance in the current unit, so that unscaling it gives it back |
| Transformers.Transformer.SetIndpUnscaled | src-tauri/src/element/transformer.rs:133-136 | stores a base-unit primary inductance in the current unit, so that unscaling it gives it back |
| Transformers.Transformer.SetIndsUnscaled | src-tauri/src/element/transformer.rs:138-141 | stores a base-unit secondary inductance in the current unit, so that unscaling it gives it back |
| Transformers.Transformer.SetMUnscaled | src-tauri/src/element/transformer.rs:143-146 | stores a base-unit coupling in the current unit, so that unscaling it gives it back |
| Transformers.Transformer.SetResUnit | src-tauri/src/element/transformer.rs:148-151 | changes the resistance unit and nothing else |
| Transformers.Transformer.SetIndpUnit | src-tauri/src/element/transformer.rs:153-156 | changes the primary unit and nothing else |
| Transformers.Transformer.SetIndsUnit | src-tauri/src/element/transformer.rs:158-161 | changes the secondary unit and nothing else |
| Transformers.Transformer.SetMUnit | src-tauri/src/element/transformer.rs:163-166 | changes the coupling unit and nothing else |
| Transformers.Transformer.SetResTol | src-tauri/src/element/transformer.rs:168-171 | changes the resistance tolerance and nothing else |
| Transformers.Transformer.SetIndpTol | src-tauri/src/element/transformer.rs:173-176 | changes the primary tolerance and nothing else |
| Transformers.Transformer.SetIndsTol | src-tauri/src/element/transformer.rs:178-181 | changes the secondary tolerance and nothing else |
| Transformers.Transformer.SetMTol | src-tauri/src/element/transformer.rs:183-186 | changes the coupling tolerance and nothing else |
| Transformers.Transformer.Ls | src-tauri/src/element/transformer.rs:191-194 | the secondary inductance: inds²·Lp for a turns ratio, otherwise the stored value unscaled |
| Transformers.Transformer.ZTee | src-tauri/src/element/transformer.rs:188-216 | z_tee(f) is TeeOf for this transformer (no contract; TeeOf states the legs) |
| Transformers.Transformer.ZCascade | src-tauri/src/element/transformer.rs:218-221 | z_cascade(f, zin) is Cascade through ZTee (no contract; Cascade states the admittance relation) |
| Transformers.Transformer.ZLegs | src-tauri/src/element/transformer.rs:269-296 | the legs z() builds (no contract; KModeLegs and OtherModesDiffer compare them with ZTee) |
| Transformers.Transformer.ZCascadeNorm | src-tauri/src/element/transformer.rs:223-225 | on normalised impedances: back in ohms it is z_cascade of the input in ohms |
| Transformers.Transformer.Z | src-tauri/src/element/transformer.rs:269-296 | with a coupling coefficient, z is the tee's impedance with a zero load |
| Transformers.Transformer.KModeLegs | src-tauri/src/element/transformer.rs:188-296 | with a coupling coefficient z and z_tee build the same legs for this transformer |
| Transformers.Transformer.OtherModesDiffer | src-tauri/src/element/transformer.rs:188-296 | otherwise the legs differ whenever the primary reactance is non-zero |
| Transformers.Transformer.CalcArc | src-tauri/src/element/transformer.rs:298-320 | starts at zin_norm, ends at z_cascade_norm of it, and plots the sweep unrotated |
| Lines.Beta | src-tauri/src/element/shortedstub.rs:47-49 | the phase constant: β·3e8 = ω·√er |
| Lines.BetaWavelength | src-tauri/src/element/shortedstub.rs:47-49 | one wavelength of line is 2π radians long |
| Lines.FractionEnds | src-tauri/src/element/tline.rs:146-147 | the swept part of the electrical length is 0 at the first sample and all of it at the last |
| Lines.InvImaginary | src-tauri/src/element/shortedstub.rs:163 | the admittance of a pure reactance jb is −j/b |
| ShortedStubs.ShortSusceptance | src-tauri/src/element/shortedstub.rs:163 | the susceptance the sweep adds is finite exactly when tan(βl)·z0 is non-zero (f64 division by zero gives an infinity) |
| ShortedStubs.ShortSusceptanceIsInverse | src-tauri/src/element/shortedstub.rs:163 | that susceptance is the inverse of the stub's normalised impedance j·z0·tan(βl)/z0c |
| ShortedStubs.ShortedStub.constructor | src-tauri/src/element/shortedstub.rs:21-29 | the values as given, in shunt |
| ShortedStubs.ShortedStub.Default | src-tauri/src/element/shortedstub.rs:94-102 | a 1 μm stub of 50-ohm line in vacuum, in shunt |
| ShortedStubs.ShortedStub.Vals | src-tauri/src/element/shortedstub.rs:110-112 | the values line up with the labels: impedance, length |
| ShortedStubs.ShortedStub.UnitList | src-tauri/src/element/shortedstub.rs:114-116 | the units line up with the labels; the impedance is in ohms |
| ShortedStubs.ShortedStub.Tols | src-tauri/src/element/shortedstub.rs:118-120 | a stub has no tolerances |
| ShortedStubs.ShortedStub.SetZ0 | src-tauri/src/element/shortedstub.rs:67-70 | changes the line impedance and nothing else |
| ShortedStubs.ShortedStub.SetEr | src-tauri/src/element/shortedstub.rs:72-75 | changes the permittivity and nothing else |
| ShortedStubs.ShortedStub.SetLength | src-tauri/src/element/shortedstub.rs:77-80 | changes the length and nothing else |
| ShortedStubs.ShortedStub.SetLengthUnscaled | src-tauri/src/element/shortedstub.rs:82-85 | stores a length in metres in the current unit, so that unscaling it gives it back |
| ShortedStubs.ShortedStub.SetLengthUnit | src-tauri/src/element/shortedstub.rs:87-90 | changes the length unit and nothing else |
| ShortedStubs.ShortedStub.BetaLRot | src-tauri/src/element/shortedstub.rs:55-65 | a quarter wavelength of phase plus the phase of the rest of the stub is the stub's electrical length again, in both branches |
| ShortedStubs.ShortedStub.Wave | src-tauri/src/element/shortedstub.rs:138-142 | the sweep starts a quarter wavelength in (π/2 of phase) exactly when the stub is shorter than half a wavelength, and at 0 otherwise |
| ShortedStubs.ShortedStub.SweepArgEnds | src-tauri/src/element/shortedstub.rs:147-155 | the tangent argument starts at 0, or at π/2 for a short stub, and ends at the electrical length |
| ShortedStubs.ShortedStub.Z | src-tauri/src/element/shortedstub.rs:126-128 | a pure reactance |
| ShortedStubs.ShortedStub.CalcArc | src-tauri/src/element/shortedstub.rs:130-179 | npts + 1 chart points of the input admittance plus the swept stub susceptance, the input as the start, and the input plus the susceptance at betal_rot as the end |
| ShortedStubs.ShortedStub.EndIsLastSample | src-tauri/src/element/shortedstub.rs:147-179 | the reported end is the point of the last sample |
| ShortedStubs.ShortedStub.EndSusceptanceIsZ | src-tauri/src/element/shortedstub.rs:126-177 | the susceptance the sweep ends on is the inverse of the stub's z normalised by z0c |
| ShortedStubs.SweepArgOfEnds | src-tauri/src/element/shortedstub.rs:147-155 | the tangent argument runs from 0, or from β·wave, to β·len |
| ShortedStubs.SweepStub | src-tauri/src/element/shortedstub.rs:145-168 | the loop fills npts + 1 entries with the chart points of the input shifted by the stub susceptance at each sample's argument |
| ShortedStubs.QuarterOfTurn | src-tauri/src/element/shortedstub.rs:138-142 | a quarter wavelength is π/2 of phase |
| OpenStubs.OpenSusceptance | src-tauri/src/element/openstub.rs:133-138 | the susceptance the sweep adds is finite exactly when z0 is non-zero |
| OpenStubs.OpenSusceptanceIsInverse | src-tauri/src/element/openstub.rs:117-138 | that susceptance is the inverse of the stub's normalised impedance −j·z0/(tan(βl)·z0c) |
| OpenStubs.SweepOpen | src-tauri/src/element/openstub.rs:136-151 | the loop fills npts + 1 entries with the chart points of the input shifted by the susceptance at i/npts of the length |
| OpenStubs.OpenStub.constructor | src-tauri/src/element/openstub.rs:22-31 | the values as given, in shunt |
| OpenStubs.OpenStub.Default | src-tauri/src/element/openstub.rs:84-93 | a 1 μm stub of 50-ohm line in vacuum, in shunt |
| OpenStubs.OpenStub.Vals | src-tauri/src/element/openstub.rs:101-103 | the values line up with the labels: impedance, length |
| OpenStubs.OpenStub.UnitList | src-tauri/src/element/openstub.rs:105-107 | the units line up with the labels; the impedance is in ohms |
| OpenStubs.OpenStub.Tols | src-tauri/src/element/openstub.rs:109-111 | a stub has no tolerances |
| OpenStubs.OpenStub.SetZ0 | src-tauri/src/element/openstub.rs:57-60 | changes the line impedance and nothing else |
| OpenStubs.OpenStub.SetEr | src-tauri/src/element/openstub.rs:62-65 | changes the permittivity and nothing else |
| OpenStubs.OpenStub.SetLength | src-tauri/src/element/openstub.rs:67-70 | changes the length and nothing else |
| OpenStubs.OpenStub.SetLengthUnscaled | src-tauri/src/element/openstub.rs:72-75 | stores a length in metres in the current unit, so that unscaling it gives it back |
| OpenStubs.OpenStub.SetLengthUnit | src-tauri/src/element/openstub.rs:77-80 | changes the length unit and nothing else |
| OpenStubs.OpenStub.Z | src-tauri/src/element/openstub.rs:117-119 | a pure reactance |
| OpenStubs.OpenStub.CalcArc | src-tauri/src/element/openstub.rs:121-157 | npts + 1 chart points of the input plus the swept susceptance, the input as the start, and the input plus the full susceptance as the end |
| OpenStubs.OpenStub.FirstSampleIsInput | src-tauri/src/element/openstub.rs:136-146 | with tan 0 = 0 the sweep starts at the input itself |
| OpenStubs.OpenStub.EndIsLastSample | src-tauri/src/element/openstub.rs:133-156 | the reported end is the point of the last sample |
| OpenStubs.OpenStub.EndSusceptanceIsZ | src-tauri/src/element/openstub.rs:117-138 | the susceptance the sweep ends on is the inverse of the stub's z normalised by z0c |
| TLines.SweepLine | src-tauri/src/element/tline.rs:145-152 | the loop fills npts + 1 entries with the chart points of the load seen through i/npts of the line, normalised |
| TLines.LineStartsAtLoad | src-tauri/src/element/tline.rs:145-150 | with tan 0 = 0 the first sample is the normalised load |
| TLines.LineEndsAtInput | src-tauri/src/element/tline.rs:145-150 | the last sample is the load seen through the whole line, normalised |
| TLines.TLine.constructor | src-tauri/src/element/tline.rs:22-31 | the values as given, in series |
| TLines.TLine.Default | src-tauri/src/element/tline.rs:93-102 | 1 μm of 50-ohm line in vacuum into a matched 50-ohm load, in series |
| TLines.TLine.Vals | src-tauri/src/element/tline.rs:110-112 | the values line up with the labels: impedance, length |
| TLines.TLine.UnitList | src-tauri/src/element/tline.rs:114-116 | the units line up with the labels; the impedance is in ohms |
| TLines.TLine.Tols | src-tauri/src/element/tline.rs:118-120 | a line has no tolerances |
| TLines.TLine.SetZ0 | src-tauri/src/element/tline.rs:61-64 | changes the line impedance and nothing else |
| TLines.TLine.SetZl | src-tauri/src/element/tline.rs:66-69 | changes the load and nothing else |
| TLines.TLine.SetEr | src-tauri/src/element/tline.rs:71-74 | changes the permittivity and nothing else |
| TLines.TLine.SetLength | src-tauri/src/element/tline.rs:76-79 | changes the length and nothing else |
| TLines.TLine.SetLengthUnscaled | src-tauri/src/element/tline.rs:81-84 | stores a length in metres in the current unit, so that unscaling it gives it back |
| TLines.TLine.SetLengthUnit | src-tauri/src/element/tline.rs:86-89 | changes the length unit and nothing else |
| TLines.TLine.Z | src-tauri/src/element/tline.rs:126-129 | z(f) is the load seen through the line (no contract; ZOfZeroLength and ZOfMatchedLine state its cases) |
| TLines.TLine.ZOfZeroLength | src-tauri/src/element/tline.rs:126-129 | a line of zero electrical length shows its load |
| TLines.TLine.ZOfMatchedLine | src-tauri/src/element/tline.rs:126-129 | a line loaded by its own impedance shows that impedance at any length |
| TLines.TLine.CalcArc | src-tauri/src/element/tline.rs:131-158 | npts + 1 chart points of the load seen through growing lengths of line, whatever zin_norm is, with the first and last points converted back as start and end |
| TLines.TLine.ReportedEnds | src-tauri/src/element/tline.rs:154-156 | when calc_z_norm undoes the chart, a series line reports its normalised load as the start and its normalised z as the end |
| TLines.TLine.MatchedLineStaysPut | src-tauri/src/element/tline.rs:145-150 | a line loaded by its own impedance plots the single point z0/z0c throughout |
| Networks.Quot | src-tauri/src/matching/ell.rs:33 | f64 division: a quotient for a non-zero divisor; for a zero divisor +∞ exactly when the dividend is positive |
| Networks.SqrtV | src-tauri/src/matching/ell_w_q.rs:42 | f64 square root: NaN exactly for a negative argument |
| Networks.AddR | src-tauri/src/matching/pi.rs:73-84 | adding a finite number to a value gives NaN exactly when the value is NaN |
| Networks.DivValue | src-tauri/src/matching/tee.rs:57-60 | dividing NaN gives NaN |
| Networks.NegValue | src-tauri/src/matching/tee.rs:57-60 | negating gives NaN exactly when the value is NaN |
| Networks.RecipValue | src-tauri/src/matching/tee.rs:57-60 | a reciprocal of NaN is NaN |
| Networks.MulValue | src-tauri/src/matching/tee.rs:68-74 | a product with NaN is NaN, and a positive multiple is +∞ exactly when the value is |
| Networks.ScaleValue | src-tauri/src/rf_utils.rs:254-256 | scaling keeps NaN, keeps +∞ and the sign of a finite value in a positively scaled unit, and scales a number as scale does |
| Networks.Absorb | src-tauri/src/matching/ell.rs:46-52 | absorbing a part equal to the ideal one makes it +∞; the result is NaN exactly when the value was not a number |
| Ells.HpParallelR | src-tauri/src/matching/ell.rs:35 | the parallel resistance of a passive series pair is at least its series resistance |
| Ells.LpParallelR | src-tauri/src/matching/ell.rs:176 | the same for the low-pass forms |
| Ells.SeriesQ | src-tauri/src/matching/ell.rs:33 | the Q of a series impedance is zero exactly when it has no reactance |
| Ells.EllFiltered | src-tauri/src/matching/ell.rs:65-69 | after the filter no part is negative; a negative part voids all three results; otherwise they are kept; the unit labels are attached |
| Ells.VoidNegative2 | src-tauri/src/matching/ell.rs:65-79 | the filter and the result record |
| Ells.HpEllCl | src-tauri/src/matching/ell.rs:16-80 | a conjugate pair is matched with no parts; an infeasible pair (zs.re above the load's parallel resistance) gives NaN; no part is ever negative; a reported Q is √(rp/zs.re − 1); NaN Q voids the parts |
| Ells.CalcHpEllCl | src-tauri/src/matching/ell.rs:16-80 | the solver method computes HpEllCl |
| Ells.HpEllLc | src-tauri/src/matching/ell.rs:87-152 | as HpEllCl with the roles of the ports exchanged |
| Ells.CalcHpEllLc | src-tauri/src/matching/ell.rs:87-152 | the solver method computes HpEllLc |
| Ells.LpEllCl | src-tauri/src/matching/ell.rs:159-209 | conjugate pair with no parts; infeasible pair gives NaN; no part negative or +∞; a reported Q is √(rp/zl.re − 1) |
| Ells.CalcLpEllCl | src-tauri/src/matching/ell.rs:159-209 | the solver method computes LpEllCl |
| Ells.LpEllLc | src-tauri/src/matching/ell.rs:216-266 | as LpEllCl with the roles of the ports exchanged |
| Ells.CalcLpEllLc | src-tauri/src/matching/ell.rs:216-266 | the solver method computes LpEllLc |
| Ells.HpEllPortSwap | src-tauri/src/matching/ell.rs:16-152 | outside the conjugate case, the lc high-pass form is the cl form with the ports swapped |
| Ells.LpEllPortSwap | src-tauri/src/matching/ell.rs:159-266 | outside the conjugate case, the lc low-pass form is the cl form with the ports swapped |
| Ells.ConjugateQFlips | src-tauri/src/matching/ell.rs:27-102 | in the conjugate case the two forms report opposite Q |
| Ells.HpEllClIdealCapacitor | src-tauri/src/matching/ell.rs:46-52 | when the ideal series capacitor equals the one the source reactance needs, it becomes +∞, unless the pair is voided |
| EllsWithQ.NetQ | src-tauri/src/matching/ell_w_q.rs:42 | the net Q is NaN exactly when rp < r, and the L-section Q otherwise |
| EllsWithQ.RootQuot | src-tauri/src/matching/ell_w_q.rs:44-66 | a NaN square root gives a NaN closed form |
| EllsWithQ.WqFiltered | src-tauri/src/matching/ell_w_q.rs:77-90 | the filter keeps q and solution 1, voids c, l and q_net when a part is negative, and keeps them otherwise |
| EllsWithQ.VoidNegative | src-tauri/src/matching/ell_w_q.rs:77-90 | the filter and the result record |
| EllsWithQ.WqFinish | src-tauri/src/matching/ell_w_q.rs:67-90 | the shared tail: no part negative; a reactance with no value gives a part with none; q_net kept or voided |
| EllsWithQ.HpEllClWQ | src-tauri/src/matching/ell_w_q.rs:18-93 | conjugate pair gives solution 0; otherwise solution 1, no negative part, and NaN parts when the discriminant is negative; its q_net is the corrected HpClNetQ, not the source's (see Left out) |
| EllsWithQ.CalcHpEllClWQ | src-tauri/src/matching/ell_w_q.rs:18-93 | the solver method computes HpEllClWQ |
| EllsWithQ.HpEllLcWQ | src-tauri/src/matching/ell_w_q.rs:102-176 | as HpEllClWQ for the lc form; its q_net is the corrected HpLcNetQ (see Left out) |
| EllsWithQ.CalcHpEllLcWQ | src-tauri/src/matching/ell_w_q.rs:102-176 | the solver method computes HpEllLcWQ |
| EllsWithQ.LpEllClWQ | src-tauri/src/matching/ell_w_q.rs:183-258 | as HpEllClWQ for the low-pass cl form |
| EllsWithQ.CalcLpEllClWQ | src-tauri/src/matching/ell_w_q.rs:183-258 | the solver method computes LpEllClWQ |
| EllsWithQ.LpEllLcWQ | src-tauri/src/matching/ell_w_q.rs:265-344 | as HpEllClWQ for the low-pass lc form |
| EllsWithQ.CalcLpEllLcWQ | src-tauri/src/matching/ell_w_q.rs:265-344 | the solver method computes LpEllLcWQ |
| EllsWithQ.HpDiscPortSwap | src-tauri/src/matching/ell_w_q.rs:44-150 | the two high-pass forms solve the same quadratic with the ports swapped |
| EllsWithQ.LpDiscPortSwap | src-tauri/src/matching/ell_w_q.rs:209-315 | the two low-pass forms solve the same quadratic with the ports swapped |
| EllsWithQ.HpClNetQIsEllQ | src-tauri/src/matching/ell_w_q.rs:36-42 | where the plain L-section has a Q, the Q-target form reports it as q_net, or voids it |
| EllsWithQ.HpClNetQAsWritten | src-tauri/src/matching/ell_w_q.rs:36-42 | q_net of calc_hp_ell_cl_w_q as written (no contract; HpClNetQAsWrittenDiffers exhibits the difference) |
| EllsWithQ.HpClNetQ | src-tauri/src/matching/ell_w_q.rs:36-42 | q_net from the load's parallel resistance, the corrected half (no contract; HpClNetQIsEllQ states it) |
| EllsWithQ.HpLcNetQAsWritten | src-tauri/src/matching/ell_w_q.rs:120-126 | q_net of calc_hp_ell_lc_w_q as written (no contract; HpLcNetQAsWrittenDiffers exhibits the difference) |
| EllsWithQ.HpLcNetQ | src-tauri/src/matching/ell_w_q.rs:120-126 | q_net over the load's resistance, the corrected half (no contract; HpLcNetQIsEllQ states it) |
| EllsWithQ.HpLcNetQIsEllQ | src-tauri/src/matching/ell_w_q.rs:120-126 | the same for the high-pass lc form |
| EllsWithQ.LpClNetQIsEllQ | src-tauri/src/matching/ell_w_q.rs:201-207 | the same for the low-pass cl form |
| EllsWithQ.LpLcNetQIsEllQ | src-tauri/src/matching/ell_w_q.rs:283-289 | the same for the low-pass lc form |
| EllsWithQ.HpClNetQAsWrittenDiffers | src-tauri/src/matching/ell_w_q.rs:36-42 | for zs = 10 + 10j and zl = 50, q_net as written differs from the L-section Q |
| EllsWithQ.HpLcNetQAsWrittenDiffers | src-tauri/src/matching/ell_w_q.rs:120-126 | for zs = 10 + 10j and zl = 50, q_net as written is a number where no L-section exists |
| TwoSections.CcllFiltered | src-tauri/src/matching/hp.rs:66-71 | after the filter no part is negative; a negative part voids all four; otherwise they are kept; four non-NaN parts stay all-or-none NaN; labels attached |
| TwoSections.VoidNegative4 | src-tauri/src/matching/hp.rs:66-81 | the filter and the result record |
| TwoSections.Rv | src-tauri/src/matching/hp.rs:30-31 | the virtual resistance is √(rp·r), positive, and the feasibility test rp ≤ rv holds exactly when rp ≤ r; on the feasible branch r < rv < rp |
| TwoSections.SqrtArgumentsPositive | src-tauri/src/matching/hp.rs:37-38 | on the feasible branch both section Q square roots are taken of positive numbers, so both Qs are positive |
| TwoSections.SectionQ | src-tauri/src/matching/hp.rs:37-38 | a section Q on the feasible branch is positive and its square is a/b − 1 |
| TwoSections.ShuntLAbsorbed | src-tauri/src/matching/hp.rs:39-48 | the source-side shunt inductor is never NaN or −∞; with no port reactance it is rp/(ω·qs); when the port's Q equals qs it is +∞ |
| TwoSections.SeriesCPositive | src-tauri/src/matching/hp.rs:52 | the series capacitor 1/(q·ω·r) is finite and positive |
| TwoSections.SeriesCAbsorbedNotNaN | src-tauri/src/matching/hp.rs:50-59 | the load-side series capacitor after absorbing the port reactance is never NaN or −∞ |
| TwoSections.SeriesCCoincides | src-tauri/src/matching/hp.rs:50-59 | when the section Q is the load's −x/r the absorbed capacitor is +∞ |
| TwoSections.ShuntLFinite | src-tauri/src/matching/hp.rs:51 | the shunt inductor rv/(ω·q) is finite and positive |
| TwoSections.SeriesLOfQ | src-tauri/src/matching/lp.rs:16-66 | the low-pass series inductor q·r/ω is not negative, and positive for a positive Q |
| TwoSections.ShuntCOfQ | src-tauri/src/matching/lp.rs:16-66 | the low-pass shunt capacitor q/(ω·r) is not negative, and positive for a positive Q |
| HighPass.Hp1 | src-tauri/src/matching/hp.rs:16-82 | infeasible when the source's parallel resistance is at most the load resistance; parts are all NaN or none; no part is negative; labels attached |
| HighPass.CalcHp1 | src-tauri/src/matching/hp.rs:16-82 | the solver method computes Hp1 |
| HighPass.Hp2 | src-tauri/src/matching/hp.rs:89-155 | infeasible when the load's parallel resistance is at most the source resistance; parts all NaN or none; none negative |
| HighPass.CalcHp2 | src-tauri/src/matching/hp.rs:89-155 | the solver method computes Hp2 |
| HighPass.HpPortSwap | src-tauri/src/matching/hp.rs:16-155 | calc_hp2 is calc_hp1 with the ports swapped, field by field |
| HighPass.Hp1CoincidentShunt | src-tauri/src/matching/hp.rs:39-48 | when the source's Q equals the source-side section Q, the inductor is +∞, unless another part voids the result |
| HighPass.Hp1CoincidentSeries | src-tauri/src/matching/hp.rs:50-59 | when the load-side section Q is the load's −x/r, the capacitor is +∞, unless another part voids the result |
| LowPass.Lp1 | src-tauri/src/matching/lp.rs:16-66 | infeasible when the source's parallel resistance is at most the load resistance; parts all NaN or none; none negative or +∞ |
| LowPass.CalcLp1 | src-tauri/src/matching/lp.rs:16-66 | the solver method computes Lp1 |
| LowPass.Lp2 | src-tauri/src/matching/lp.rs:73-123 | infeasible when the load's parallel resistance is at most the source resistance; parts all NaN or none; none negative or +∞ |
| LowPass.CalcLp2 | src-tauri/src/matching/lp.rs:73-123 | the solver method computes Lp2 |
| LowPass.LpPortSwap | src-tauri/src/matching/lp.rs:16-123 | calc_lp2 is calc_lp1 with the ports swapped, field by field |
| BandPass.Bp1 | src-tauri/src/matching/bp.rs:16-74 | infeasible when the source's parallel resistance is at most the load resistance; parts all NaN or none; none negative |
| BandPass.CalcBp1 | src-tauri/src/matching/bp.rs:16-74 | the solver method computes Bp1 |
| BandPass.Bp2 | src-tauri/src/matching/bp.rs:81-139 | infeasible when the load's parallel resistance is at most the source resistance; parts all NaN or none; none negative |
| BandPass.CalcBp2 | src-tauri/src/matching/bp.rs:81-139 | the solver method computes Bp2 |
| BandPass.Bp3 | src-tauri/src/matching/bp.rs:146-204 | infeasible when the source's low-pass parallel resistance is at most the load resistance; parts all NaN or none; none negative |
| BandPass.CalcBp3 | src-tauri/src/matching/bp.rs:146-204 | the solver method computes Bp3 |
| BandPass.Bp4 | src-tauri/src/matching/bp.rs:211-269 | infeasible when the load's low-pass parallel resistance is at most the source resistance; parts all NaN or none; none negative |
| BandPass.CalcBp4 | src-tauri/src/matching/bp.rs:211-269 | the solver method computes Bp4 |
| BandPass.Bp12PortSwap | src-tauri/src/matching/bp.rs:16-139 | calc_bp2 is calc_bp1 with the ports swapped |
| BandPass.Bp34PortSwap | src-tauri/src/matching/bp.rs:146-269 | calc_bp4 is calc_bp3 with the ports swapped |
| BandPass.Bp1CoincidentShunt | src-tauri/src/matching/bp.rs:16-74 | when the source's Q equals the source-side section Q, the inductor is +∞, unless another part voids the result |
| BandPass.Bp3CoincidentSeries | src-tauri/src/matching/bp.rs:146-204 | when the load-side section Q is the load's −x/r, the capacitor is +∞, unless another part voids the result |
| PiTees.MinQ | src-tauri/src/matching/pi.rs:45 | the least Q √(max/min − 1) of the two port resistances is non-negative and its square is max/min − 1 |
| PiTees.MinQBound | src-tauri/src/matching/tee.rs:45-54 | a target at or above the least Q satisfies max ≤ min·(q² + 1), strictly above it max < min·(q² + 1) |
| PiTees.SectionRoot | src-tauri/src/matching/pi.rs:64-67 | a section Q √(a/b − 1) with 0 < b ≤ a is non-negative, and positive when b < a |
| PiTees.ParallelValue | src-tauri/src/matching/pi.rs:86 | the series combination a·b/(a + b) of two parts is NaN when either is not finite, and of two positive parts is positive and below both |
| PiTees.Parallel | src-tauri/src/matching/tee.rs:77-78 | a·b/(a + b) of two positive numbers is positive and below both |
| Pis.PiRv | src-tauri/src/matching/pi.rs:54 | for a target at or above the least Q the virtual resistance max/(q² + 1) is positive and at most both port resistances, strictly below both above the least Q |
| Pis.PortInductance | src-tauri/src/matching/pi.rs:75 | the port's parallel inductance rp/(q·w) is positive for a positive port Q |
| Pis.PiAbsorb | src-tauri/src/matching/pi.rs:73-77 | the absorption ls·(lps/(ls − lps)) keeps NaN, gives a number or an infinity for a positive finite inductor, and +inf when the inductor equals the port inductance |
| Pis.PiShuntL | src-tauri/src/matching/pi.rs:72-84 | a shunt inductor rp/(w·qx) with qx > 0 is never NaN, and is +inf when qx equals the port Q |
| Pis.PiFiltered | src-tauri/src/matching/pi.rs:95-104 | after the filters no part is negative; a negative part in (c, ls, ll) or in (l, cs, cl) voids that whole group, otherwise the group is kept; q is the target and the unit labels are attached |
| Pis.VoidPiGroups | src-tauri/src/matching/pi.rs:95-104 | applying the two filters one after the other gives the filtered record |
| Pis.Pi | src-tauri/src/matching/pi.rs:11-120 | a negative target voids every part and q; a zero target between equal resistances gives all zeros; a target below the least Q voids everything; otherwise q is the target, no part is negative and (l, cs, cl) are NaN together or not at all |
| Pis.CalcPi | src-tauri/src/matching/pi.rs:11-120 | the imperative calc_pi computes exactly the function Pi |
| Pis.PiAboveLeast | src-tauri/src/matching/pi.rs:45-53 | past the first two tests, the least-Q test and the network give Pi |
| Pis.PiNetwork | src-tauri/src/matching/pi.rs:54-104 | the feasible branch gives Pi |
| Pis.PiSections | src-tauri/src/matching/pi.rs:56-104 | the step-by-step computation with one reused section-Q variable equals the staged definition for the virtual resistance rv |
| Pis.PiShuntGroupAgrees | src-tauri/src/matching/pi.rs:72-99 | strictly above the least Q, (c, ls, ll) are NaN together or not at all |
| Pis.StageShuntGroupAgrees | src-tauri/src/matching/pi.rs:72-99 | with positive section Qs, (c, ls, ll) are NaN together or not at all after the filter |
| Pis.PiCoincidentShunt | src-tauri/src/matching/pi.rs:73-77 | when the source-side section Q equals the port's own Q, the source-side inductor is +inf unless a negative part voids its group: no filter removes that infinity |
| Tees.PortCap | src-tauri/src/matching/tee.rs:58-62 | the port capacitance −1/(w·x) is finite for a non-zero reactance and −inf for x = 0 |
| Tees.TeeAbsorb | src-tauri/src/matching/tee.rs:59-63 | a series capacitor equal to the port capacitance becomes +inf; two finite values give a number or +inf; a finite capacitor against an infinite port capacitance gives NaN |
| Tees.TeeSeriesC | src-tauri/src/matching/tee.rs:56-75 | a series capacitor with a positive section Q is a number or +inf when its guard and its absorbed reactance are both non-zero or the guard is zero, and NaN when the guard is non-zero but the absorbed reactance is zero |
| Tees.TeeFiltered | src-tauri/src/matching/tee.rs:94-103 | after the filters no part is negative and no series capacitor is +inf; each group that went in without NaN comes out all NaN or all kept; q is the target and the unit labels are attached |
| Tees.VoidTeeGroups | src-tauri/src/matching/tee.rs:94-103 | applying the two filters one after the other gives the filtered record |
| Tees.TeeRv | src-tauri/src/matching/tee.rs:54 | for a target at or above the least Q the virtual resistance min·(q² + 1) is at or above both port resistances, strictly above both above the least Q |
| Tees.TeeWith | src-tauri/src/matching/tee.rs:11-119 | a negative target voids every part and q; a zero target between equal resistances gives all zeros; a target below the least Q voids everything; otherwise q is the target, no part is negative, no series capacitor is +inf and (c, ls, ll) are NaN together or not at all |
| Tees.TeeAsWritten | src-tauri/src/matching/tee.rs:11-119 | calc_tee as written, the load-side capacitor absorbing the source reactance (no contract; TeeClAsWrittenMixesNaN exhibits the mixed NaN) |
| Tees.Tee | src-tauri/src/matching/tee.rs:11-119 | calc_tee with the load-side capacitor absorbing the load reactance, the corrected half (no contract; TeeSeriesGroupAgrees and TeeWith state its properties) |
| Tees.CalcTee | src-tauri/src/matching/tee.rs:11-119 | the imperative calc_tee computes the corrected Tee, whose load-side capacitor absorbs the load's own reactance (see Left out and Findings) |
| Tees.TeeAboveLeast | src-tauri/src/matching/tee.rs:45-53 | past the first two tests, the least-Q test and the network give Tee |
| Tees.TeeNetwork | src-tauri/src/matching/tee.rs:54-103 | the feasible branch gives Tee |
| Tees.TeeSections | src-tauri/src/matching/tee.rs:56-103 | the step-by-step computation with one reused section-Q variable equals the staged definition for the virtual resistance rv |
| Tees.TeeSeriesGroupAgrees | src-tauri/src/matching/tee.rs:68-103 | with the corrected absorption, strictly above the least Q, (l, cs, cl) are NaN together or not at all |
| Tees.StageSeriesGroupAgrees | src-tauri/src/matching/tee.rs:56-103 | with positive section Qs and the corrected absorption, (l, cs, cl) are NaN together or not at all after the filter |
| Tees.TeeClAsWrittenMixesNaN | src-tauri/src/matching/tee.rs:68-75 | as written, zs = 50, zl = 10 + 5j, w = 1, q = 3 leaves cl NaN beside a finite cs and l, because the load-side capacitor absorbs the source's zero reactance |
| Matching.FormFromStr | src-tauri/src/matching.rs:203-274 | exactly the five selectors zri, yri, gma, gri and rc are accepted, each maps back to its own name, and any other string is the "impedance unit(s) not recognized" error |
| Matching.PolarOfMagAng | src-tauri/src/matching.rs:220-232 | under the polar law, the magnitude and angle in degrees a gma output reports read back as polar give the reflection coefficient again |
| Matching.RcAdmittance | src-tauri/src/matching.rs:128-131 | the admittance 1/r + j·c·w of a parallel RC with a non-zero resistance is non-zero |
| Matching.ConvertPort | src-tauri/src/matching.rs:194-199 | converting a port to its own form returns it unchanged |
| Matching.ChangeImpedanceWith | src-tauri/src/matching.rs:182-592 | equal selectors return the inputs; the result is an error exactly when the selectors differ and one of them is unknown, and that error is "impedance unit(s) not recognized" |
| Matching.ChangeImpedanceAsWritten | src-tauri/src/matching.rs:182-592 | change_impedance as written, reading gma as rectangular on the way to zri and rc (no contract; ResistiveRoundTripAsWritten exhibits the failing round trip) |
| Matching.ChangeImpedance | src-tauri/src/matching.rs:182-592 | change_impedance with every gma input read as polar, the corrected half (no contract; ChangeImpedanceRoundTrip states its round trip) |
| Matching.ConvertPortViaImpedance | src-tauri/src/matching.rs:203-590 | with gma read as polar, every conversion between two different forms equals reading the input as an impedance and writing that impedance in the output form, the shortcuts gma→gri, gri→gma and rc→yri included |
| Matching.ImpedanceRoundTrip | src-tauri/src/matching.rs:203-590 | writing an impedance in any form and reading it back from that form gives the impedance |
| Matching.RcReadBack | src-tauri/src/matching.rs:248-273 | the (r, c) pair the zri→rc conversion reports is a parallel RC whose impedance is the input |
| Matching.AdmittanceReadBack | src-tauri/src/matching.rs:319-344 | the (r, c) pair read off an admittance y with a non-zero real part has a non-zero r and admittance y |
| Matching.ChangeImpedanceRoundTrip | src-tauri/src/matching.rs:182-592 | converting a pair of impedances from zri to any known form and back to zri returns them, with gma read as polar both ways |
| Matching.PortRoundTrip | src-tauri/src/matching.rs:203-590 | one port of the round trip zri → g → zri returns the impedance |
| Matching.GammaRoundTripAsWrittenFails | src-tauri/src/matching.rs:348-361 | as written, an impedance whose Γ has a negative real part does not survive zri→gma→zri, because gma→zri reads the magnitude and angle as a rectangular Γ |
| Matching.ResistiveRoundTripAsWritten | src-tauri/src/matching.rs:348-361 | as written, no resistance 0 < r < z0 survives zri→gma→zri |
| Matching.ResistiveGamma | src-tauri/src/rf_utils.rs:262-266 | the reflection coefficient of a resistance 0 < r < z0 is a real in (−1, 0) |
| Matching.NetworkPorts | src-tauri/src/matching.rs:117-149 | the ports are an error exactly when imp is not one of the five forms or z_scale is neither diff nor se, and that error is "Impedance type not recognized"; zri with se gives the inputs |
| Matching.DiffIsHalfSe | src-tauri/src/matching.rs:138-145 | for every known form, a differential port is half the single-ended port read from the same numbers |
| Matching.PortsAgreeWithChangeImpedance | src-tauri/src/matching.rs:117-127 | calc_networks reads yri, gma and gri ports as the impedances change_impedance converts them to |
| Matching.Solutions | src-tauri/src/matching.rs:151-168 | the solver record echoes the ports it was computed for; the Tee and high-pass Q-target solvers in it are the corrected ones (see Left out) |
| Matching.CalcNetworksResult | src-tauri/src/matching.rs:95-179 | an error exactly for an unknown imp or z_scale, with the text "Impedance type not recognized"; otherwise the echoed ports are the ports read and scaled; the solutions use the corrected Tee and q_net (see Left out) |
| Matching.CalcNetworks | src-tauri/src/matching.rs:95-179 | the imperative calc_networks, filling the default record field by field, returns CalcNetworksResult, with its corrected solvers (see Left out) |
| Schematics.Schematic.constructor | src/assets/js/defaults.js:20-34 | the schematic starts as the settings entry followed by the black box, and is well formed |
| UtilJs.UnitTextToNum | src/assets/js/util.js:191-203 | the label's first letter picks the multiplier f 1e-15, p 1e-12, n 1e-9, u 1e-6, m 1e-3, k 1e3, M 1e6, except that the label "m" is 1; any other label that is not λ gives 1, the empty one included; λ gives the wavelength: multiplier · freq · √er = 3e8 |
| UtilJs.FirstCharacterDecides | src/assets/js/util.js:193-202 | two labels with the same first character, neither of them the bare "m", have the same multiplier |
| UtilJs.OrderedChecks | src/assets/js/util.js:193-202 | the order of the tests: mm and mΩ are milli, the bare m is metres (1), the upper-case K and Q labels fall through to 1 |
| UtilJs.PrefixAgreesWithBackEnd | src/assets/js/util.js:193-196 | a femto-to-micro prefix on F, H or Ω is a unit the back end knows, and the front end's multiplier times the back end's scale is 1 |
| UtilJs.WavelengthAgreesWithBackEnd | src/assets/js/util.js:201 | the λ multiplier is the back end's wavelength scale for the same frequency and permittivity |
| UtilJs.FreqUnitToText | src/assets/js/util.js:49-57 | the text is one of Hz, KHz, MHz, GHz and THz, and any multiplier other than 1, 1e3, 1e6, 1e9 and 1e12 gives Hz |
| UtilJs.FreqTextToMultiplier | src/assets/js/util.js:140-150 | exactly the five frequency texts select a multiplier, which is one of the five and whose text is the selected text |
| UtilJs.MultiplierRoundTrip | src/assets/js/util.js:49-57 | text then multiplier gives a multiplier back exactly when it is one of the five; any other reads back as 1 |
| UtilJs.SelectMultiplier | src/assets/js/util.js:140-144 | a known text sets the multiplier whose text it is; any other text keeps the current multiplier |
| UtilJs.OneOverComplex | src/assets/js/util.js:179-184 | the result times the input is 1, and it is the complex inverse |
| UtilJs.DecimalString | src/assets/js/util.js:188 | the decimal numeral of n is non-empty and all digits, has one digit exactly when n < 10, and starts with 0 only for 0 |
| UtilJs.DecimalRoundTrip | src/assets/js/util.js:188 | reading back the decimal numeral of n gives n |
| UtilJs.Pad | src/assets/js/util.js:186-189 | the padded numeral has at least two digits, starts with 0 exactly when n < 10, is then 0 followed by the numeral of n, and reads back as n |
| UtilJs.SpanUpdated | src/assets/js/util.js:168 | the entry keeps its form and length of labels; label k is the new value and every other label and property is unchanged |
| UtilJs.UpdateSpan | src/assets/js/util.js:155-177 | the schematic stays well formed and only entry sch_num changes, to SpanUpdated |
| UtilJs.Normalized | src/assets/js/util.js:85-93 | an element of an old file gets arrays: abs is its value or values followed by abs_bb_i when present, unit its label or labels; nothing else changes |
| UtilJs.NormalizedAgain | src/assets/js/util.js:89 | normalizing twice is normalizing once unless abs_bb_i is present, in which case it is appended a second time |
| UtilJs.NormalizedAll | src/assets/js/util.js:85-93 | every element is normalized, the length is kept, and a list starting with the settings and holding at least the black box becomes well formed |
| UtilJs.UpdateFromOldState | src/assets/js/util.js:82-93 | the loop leaves the schematic equal to NormalizedAll of the old one, and well formed when it starts with the settings and the black box |
| UtilJs.ImpSwitched | src/assets/js/util.js:129-137 | when switching from se to diff or back, imp takes the selection and the black box's two values are doubled for diff and halved for se, nothing else of it changing; otherwise settings and black box are unchanged |
| UtilJs.ImpSwitchRoundTrip | src/assets/js/util.js:129-137 | switching se → diff → se returns the settings and the black box |
| UtilJs.SwitchAsWrittenNeverFires | src/assets/js/util.js:129-137 | as written, comparing the settings object with a string never succeeds, so no selection changes the settings or the black box |
| UtilJs.SwitchAsWrittenKeepsSingleEnded | src/assets/js/util.js:129-137 | as written, selecting diff on a single-ended schematic leaves imp at se, where the intended switch makes it diff |
| UtilJs.SettingsFromDom | src/assets/js/util.js:122-150 | frequency, span, z0 and er come from the fields; a known frequency or span text selects its multiplier and an unknown one keeps the old multiplier; imp is as before |
| UtilJs.UpdateFromDom | src/assets/js/util.js:120-153 | the schematic stays well formed; entry 0 becomes the settings read from the fields, entry 1 the black box, every other entry unchanged; the se/diff switch is the corrected one, which fires (see Left out and Findings) |
| SmithTool.DefaultEntry | src/assets/js/smith_tool.js:26-62 | exactly the palette kinds have a default element, of that kind, in array form with one to four values and as many labels, zero tolerance and impedance; line kinds have a length and a line impedance and customZ a table |
| SmithTool.DefaultLabelsAreFixed | src/assets/js/smith_tool.js:27-61 | no default label is λ and each has a multiplier; for a line its value times the label's multiplier is its line_length |
| SmithTool.ClickedCell | src/assets/js/smith_tool.js:24-64 | a palette kind appends its default element and keeps the schematic well formed; any other kind leaves it unchanged |
| SmithTool.SchemAbsUpdated | src/assets/js/smith_tool.js:70-96 | where the kind and the field write abs, value k is set and everything else is kept; a black box's other field sets abs_bb_i; a line's line_zo field sets line_zo; anything else is unchanged |
| SmithTool.UpdateSchemAbs | src/assets/js/smith_tool.js:66-98 | the schematic stays well formed; the settings entry is never written; otherwise only the target entry changes, to SchemAbsUpdated |
| SmithTool.TolRow | src/assets/js/smith_tool.js:1398-1417 | each element's row holds one multiplier per corner plus the ideal column when there is more than one corner |
| SmithTool.TolTable | src/assets/js/smith_tool.js:1392-1417 | the table has one row per schematic entry |
| SmithTool.TolTableAt | src/assets/js/smith_tool.js:1404-1413 | the multiplier of element i at corner j is 1 + tol/100 or 1 − tol/100 by bit rank(i) of j, or 1 without tolerance |
| SmithTool.ToleranceTable | src/assets/js/smith_tool.js:1392-1417 | the loops with their array rows build exactly TolTable |
| SmithTool.FillCorners | src/assets/js/smith_tool.js:1404-1413 | starting from a row of ones, the two loop nests set every position p to the upper multiplier when p mod jumper is below jumper/2 and to the lower one otherwise |
| SmithTool.FillResidue | src/assets/js/smith_tool.js:1405-1407 | the inner loop writes v at every position with residue x modulo the step and leaves the others as they were |
| SmithTool.CornersDistinct | src/assets/js/smith_tool.js:1395-1415 | two different corners differ in the multiplier of some element with a tolerance |
| SmithTool.EveryCombinationIsACorner | src/assets/js/smith_tool.js:1395-1415 | every choice of upper or lower for the toleranced elements is some corner of the table |
| SmithTool.LastColumn | src/assets/js/smith_tool.js:293 | every element's row has the same last index, the column the ideal arc is drawn from |
| SmithTool.LastColumnIsIdeal | src/assets/js/smith_tool.js:1416 | the last column holds 1 for every element: the ideal components |
| SmithTool.ScaledBy | src/assets/js/smith_tool.js:299-302 | every value is the original value times the multiplier |
| SmithTool.Cornered | src/assets/js/smith_tool.js:298-303 | the corner keeps the schematic well formed and the settings; only values change, each element's values become its original values times its multiplier in column xx |
| SmithTool.IdealCornerRestores | src/assets/js/smith_tool.js:292-303 | overwriting with the ideal column from the schematic itself gives the schematic back |
| SmithTool.ApplyCorner | src/assets/js/smith_tool.js:298-303 | the nested loops leave the schematic equal to Cornered |
| SmithTool.ImpedanceToReflectionCoefficient | src/assets/js/smith_tool.js:199-214 | the real and imaginary parts are the back end's reflection coefficient of the denormalized impedance, the magnitude is its modulus, the phase is 0 on the imaginary axis, in [0, 360) and in (90, 270) for a negative real part |
| SmithTool.InsideUnitCircle | src/assets/js/smith_tool.js:203-208 | the reflection coefficient lies inside the unit circle exactly for a positive normalized resistance and on it exactly for zero resistance |
| SmithTool.PhaseDegrees | src/assets/js/smith_tool.js:209-212 | the phase is 0 for a zero real part, lies in [0, 360), in (90, 270) for a negative real part and in [0, 90) or (270, 360) for a positive one |
| Binary.BitsDiffer | src/assets/js/smith_tool.js:1404-1413 | two different corners below 2^n differ in one of their n bits |
| Binary.Realise | src/assets/js/smith_tool.js:1404-1413 | every choice of n bits is the numeral of one corner below 2^n |


## Left out

- Floating point: `f64` is modelled as `real`. Rounding, overflow, ulp-margin comparisons and the numeric test exemplars are not modelled. A division by zero that yields an infinity is taken as division by +0, so signed zero is not modelled.
- `approx_eq!(x, 0.0)` (capacitor, inductor and RLC `z`, and `calc_ri`) is modelled as `x == 0.0`.
- Transcendental functions are parameters (`Numeric.Libm`). Only the laws `SqrtLaw`, `TanZero`, `AtanLaw` and `PolarLaw` are assumed, each only by the members that require it. No value of `tan`, `cos`, `sin`, `atan` or `atan2` is otherwise constrained.
- Divisions by zero that the source does not rely on are outside the model. Examples: a zero reference impedance, a zero angular frequency in an element's `z`, and a zero denominator in the chart map. The members concerned require the divisor to be non-zero, through the `…Defined` predicates. In the matching solvers the source's infinities and NaNs are modelled as values. The `calc_ri` family leaves them out, as the lines below say.
- Ells, EllsWithQ, HighPass, LowPass, BandPass, Pis, Tees: the solvers are modelled only for positive port resistances and a positive angular frequency (`Networks.Passive`). Elsewhere the source divides by zero and its NaN/inf results are not followed.
- Elements.SweepArc, Smith.ArcSmithPoints and every element `CalcArc`: these require at least one interval (`npts > 0`). With `npts = 0` the source computes `0/0` for the interpolation fraction.
- `calc_z_norm` is called by the element arcs but its definition is not part of this model. It is an uninterpreted function parameter; `Elements.InvertsChart` states the one property assumed of it.
- SmithRi.CalcRi: requires what `calc_ri` divides by to be non-zero (`RiTagDefined`, `LumpedDefined`), namely z0, w·C for a capacitor, `rc` and `rlc`, and R for `rc`. Where these vanish the source returns an infinity or a NaN, which is not modelled. It also requires a non-zero primary inductance for a transformer outside K mode (`XfmrDefined`). It requires at least `Arity` values and units and a non-empty table, where the source panics on an index out of bounds.
- SmithRi.CalcRiNew: requires the same of `calc_ri_new` (`RiNewTagDefined`, `ElementDefined`): non-zero divisors, invertible impedances in every parallel combination, a non-zero line denominator, `0 <= er` for lines and stubs (`√er` is NaN otherwise), and the values, units and table the arm reads.
- SmithRi.CalcRiTline: requires `0 <= er` (`TlineDefined`), where `√er` gives NaN, at least one value and unit, where the source panics, and non-zero divisors.
- SmithRi.CalcRiTline and SmithRi.RiNewValue: the `so` arms are modelled as written, with the reactance −j·line_z0·tan(1/βl). The open stub of openstub.rs has −j·line_z0/tan βl; `OpenArmCotangent` states when the two agree. No Findings row is claimed, because `tan` is a parameter of the model and no concrete input can be exhibited.
- Frequencies.Frequency.SetFreqUnit: stores the corrected `ConvertedVal`, not `SetFreqUnitAsWritten` (see Findings); the as-written conversion is modelled and its loss of the frequency shown by `SetFreqUnitAsWrittenLosesFrequency`.
- The `customZ` arm of `calc_ri`, `calc_ri_new` and `calc_ri_custom`: each member listed on the next seven lines uses the corrected lookup `CustomZ` for the `customZ` arm, not `CustomZAsWritten` (see Findings). The two differ only for a frequency inside the table's last interval.
- SmithRi.RiValue: its `customZ` arm is the corrected lookup, through `TableZ`.
- SmithRi.CalcRi: through RiValue, its `customZ` arm is the corrected lookup.
- SmithRi.SeriesZ: its `customZ` arm is the corrected lookup, through `TableZ`.
- SmithRi.SeriesValue: through SeriesZ, its `customZ` arm is the corrected lookup.
- SmithRi.RiNewValue: through SeriesZ, its `customZ` arm is the corrected lookup.
- SmithRi.CalcRiNew: through RiNewValue, its `customZ` arm is the corrected lookup.
- SmithRi.CalcRiCustom: computes the corrected lookup `CustomZ`; `CustomZAsWritten` models the source's loop.
- Matching.Solutions: the solver record uses the corrected `Tees.Tee` (load-side capacitor absorbing the load reactance) and the corrected `q_net` of `EllsWithQ.HpEllClWQ` and `EllsWithQ.HpEllLcWQ` (see Findings). `Tees.TeeAsWritten`, `EllsWithQ.HpClNetQAsWritten` and `EllsWithQ.HpLcNetQAsWritten` model the source's formulas.
- Matching.CalcNetworksResult: through Solutions, the same corrected solvers.
- Matching.CalcNetworks: computes CalcNetworksResult, with the same corrected solvers.
- Tees.Tee, Tees.CalcTee and Tees.TeeWith: `Tee` and `CalcTee` are the corrected `calc_tee`. `TeeWith` is parametrised by the absorbed reactance and covers both halves.
- EllsWithQ.HpEllClWQ and EllsWithQ.CalcHpEllClWQ: report the corrected `q_net` (`HpClNetQ`), not the source's `HpClNetQAsWritten`.
- EllsWithQ.HpEllLcWQ and EllsWithQ.CalcHpEllLcWQ: report the corrected `q_net` (`HpLcNetQ`), not the source's `HpLcNetQAsWritten`.
- UtilJs.UpdateFromDom: uses the corrected switch `ImpSwitched`, which compares `schematic[0].imp`. The source compares `schematic[0]` itself, so its branches at `util.js` lines 129 and 133 never fire; `ImpSwitchedAsWritten` models that.
- `calc_ri_bb` and `calc_ri_lumped` (`smith.rs`) are variants of `calc_ri` for single element kinds and are not modelled; `calc_ri`, `calc_ri_new`, `calc_ri_custom` and `calc_ri_tline` are.
- SmithRi.CalcRiNewAgreesWithCalcRi: requires the frequency unit to be base (hertz). The `customZ` arm of `calc_ri_new` looks up the raw frequency, while `calc_ri_custom` unscales it first, so the two differ for any other unit.
- The `so` arm of `calc_ri_new` computes `tan(1 / betal)`; it is modelled as written, with `tan` uninterpreted.
- The `Lambda(f, er)` scale of `unit.rs` is the wavelength itself, whereas every prefix scale is the reciprocal of its multiplier. This is modelled as written.
- The trait's default `r(f)` and `x(f)` are the real and imaginary parts of each element's `Z`. They are separate members only for the black box (`BlackBoxes.BlackBox.R`, `X`).
- `rf_utils_bak.rs` does not compile as it stands (a missing `Error` import). It is modelled as if the import were present.
- `lib.rs` window creation, Tauri command plumbing, `serde` serialisation, clipboard writes and every `verbose` log line are not modelled. `conjugate.rs` is not part of this model.
- Matching.CalcNetworks: the `(inf, inf)` sentinel that marks an unknown selector is modelled as the error itself. A port whose value really is `(inf, inf)` is not modelled. The `unwrap` of each unit selector cannot fail, because `Unit::from_str` is total.
- The asynchronous `invoke` calls of the front end are not modelled: their results are inputs.
- The DOM is modelled only as the values read from it (`UtilJs.Dom`), as numbers: `Number(...)` parsing of field text is not modelled. Drawing, plotting, menus, `update_smith_chart` outside the tolerance table and `update_schem_component` are not modelled. So are the file and network I/O of `util.js`: `readFile`, `saveToJsonBin`, `readFromJsonBin` and `download2`.
- The module-level `z0` global that `updateFromDom` assigns is not modelled; the settings entry's `z0` is.
- UtilJs.UpdateFromOldState: models the normalisation loop only. Selecting the menu options, copying the settings into the fields and the final `updateFromDom` call are DOM work.
- SmithTool.ApplyCorner: the deep copy `JSON.parse(JSON.stringify(schematic))` is the `original` parameter.
- UtilJs.UpdateSpan: requires `unitIndex` to be in range. A JavaScript write past the end of the array, which grows it with holes, is not modelled.
- SmithTool.UpdateSchemAbs: requires `absCounter` to be in range, for the same reason.
- UtilJs.Pad: defined on natural numbers only. JavaScript's `pad` on negative or fractional numbers is not modelled.
- The front end maps the label `μ…` to 1 (`unitTextToNum` tests for `u`), while the back end prints micro as `μ`. The front end's own default labels use `u`, so this is recorded here and not as a finding.

## Findings

| source | as written | input that shows it | evidently intended | confidence | as-written member | corrected member |
|---|---|---|---|---|---|---|
| src-tauri/src/matching/ell_w_q.rs:36-42 | `q_net` of `calc_hp_ell_cl_w_q` is `√(rp/rs − 1)` with `rp` built from the source's Q `zs.im/zs.re` and the load's resistance | zs = 10 + 10j, zl = 50: reports √9 = 3 | the Q of the L-section, from the load's parallel resistance as `calc_hp_ell_cl` computes it: √4 = 2 | not executed | EllsWithQ.HpClNetQAsWrittenDiffers | EllsWithQ.HpClNetQIsEllQ |
| src-tauri/src/matching/ell_w_q.rs:120-126 | `q_net` of `calc_hp_ell_lc_w_q` takes the source's parallel resistance over the source's own resistance | zs = 10 + 10j, zl = 50: reports √(20/10 − 1) = 1 | over the load's resistance as `calc_hp_ell_lc` has it: 20 < 50, so no L-section exists and `q_net` is NaN | not executed | EllsWithQ.HpLcNetQAsWrittenDiffers | EllsWithQ.HpLcNetQIsEllQ |
| src-tauri/src/matching/tee.rs:68-75 | the load-side series capacitor is guarded by `zl.im != 0` but absorbs `−1/(w·zs.im)` | zs = 50, zl = 10 + 5j, w = 1, q = 3: `cl` is NaN while `cs` and `l` are finite | absorb `−1/(w·zl.im)`, so that `(l, cs, cl)` are NaN together or not at all | not executed | Tees.TeeClAsWrittenMixesNaN | Tees.TeeSeriesGroupAgrees |
| src-tauri/src/frequency.rs:35-40 | `set_freq_unit` computes `unscale(scale(val, old), new)`, but `val` is already in the old unit | 280 GHz re-expressed in MHz becomes 0.28 MHz | keep the frequency: `scale(unscale(val, old), new)`, giving 280000 MHz | not executed | Frequencies.SetFreqUnitAsWrittenLosesFrequency | Frequencies.Frequency.SetFreqUnit |
| src-tauri/src/smith.rs:443 | the `customZ` lookup (also at lines 763 and 993) returns the row itself when the first row above the frequency is the last row | table (1, 0, 0), (2, 10, 0), (3, 20, 0) at f = 2.5: gives 20 | interpolate whenever a row below exists, giving 15; only a frequency above every row takes the last row | not executed | SmithRi.CustomZLastIntervalNotInterpolated | SmithRi.CustomZBracketed |
| src-tauri/src/matching.rs:348-361 | `gma → zri` (and `gma → rc`, 390-415) reads the magnitude and angle as a rectangular Γ, while `zri → gma` writes magnitude and angle and `gma → yri` reads them as polar | any resistance 0 < r < z0: `zri → gma → zri` does not return r | read `gma` as polar everywhere, so that every round trip through `gma` returns the impedance | not executed | Matching.ResistiveRoundTripAsWritten | Matching.ChangeImpedanceRoundTrip |
| src/assets/js/util.js:129-137 | the single-ended/differential switch compares the settings object `schematic[0]` with the strings `'se'` and `'diff'`, so it never fires | a single-ended schematic with `diff` selected stays `se` | compare `schematic[0].imp`, so that the black box is doubled or halved and `imp` follows the menu | not executed | UtilJs.SwitchAsWrittenKeepsSingleEnded | UtilJs.ImpSwitchRoundTrip |
