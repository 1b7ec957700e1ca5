/**
 * The front end's helpers (`src/assets/js/util.js`): unit-label and
 * frequency-unit conversion, the reciprocal of a complex number, the
 * zero-padding of date fields, and the in-place updates of the schematic
 * that the span selector, the settings form and the loading of a saved
 * file make.
 *
 * JavaScript numbers are modelled as reals, and a division whose result
 * may be infinite or NaN as a `Value`.
 */
module UtilJs {
  import opened Wrappers
  import opened Numeric
  import opened Schematics
  import Net = Networks
  import Units

  // ---------------------------------------------------------------------
  // Unit labels
  // ---------------------------------------------------------------------

  /**
   * `unitTextToNum(unit, freq_here)`: the factor from a value in the unit
   * `unit` to the same value in base units.  Only the first character is
   * looked at, except that the label `m` alone is metres; a wavelength
   * label gives `3e8 / (freq sqrt(er))`, `er` being the relative
   * permittivity of the settings entry.  Every other label, `Q`, `K`, `Ω`
   * and the upper-case `K` of `KΩ` among them, gives 1.
   */
  function UnitTextToNum(m: Libm, unit: string, freq: real, er: real): (r: Value)
    ensures |unit| > 0 && unit != "m" && unit[0] in PREFIX_FACTORS ==> r == Num(PREFIX_FACTORS[unit[0]])
    ensures unit == "m" ==> r == Num(1.0)
    ensures !Wavelength(unit) && (|unit| == 0 || unit[0] !in PREFIX_FACTORS) ==> r == Num(1.0)
    ensures !Wavelength(unit) ==> r.Num? && 0.0 < r.v <= 1e6
    ensures Wavelength(unit) && SqrtLaw(m) && 0.0 < er && 0.0 < freq ==>
              r.Num? && r.v * (freq * m.sqrt(er)) == C0
  {
    if |unit| > 0 && unit[0] == 'f' then Num(1e-15)
    else if |unit| > 0 && unit[0] == 'p' then Num(1e-12)
    else if |unit| > 0 && unit[0] == 'n' then Num(1e-9)
    else if |unit| > 0 && unit[0] == 'u' then Num(1e-6)
    else if unit == "m" then Num(1.0)
    else if |unit| > 0 && unit[0] == 'm' then Num(1e-3)
    else if |unit| > 0 && unit[0] == 'k' then Num(1e3)
    else if |unit| > 0 && unit[0] == 'M' then Num(1e6)
    else if Wavelength(unit) then
      match Net.SqrtV(m, er)
      case Num(s) =>
        WavelengthFactor(m, freq, er);
        Net.Quot(C0, freq * s)
      case _ => NaN
    else Num(1.0)
  }

  /** The first characters `unitTextToNum` reads as a prefix, and their factors. */
  const PREFIX_FACTORS: map<char, real> :=
    map['f' := 1e-15, 'p' := 1e-12, 'n' := 1e-9, 'u' := 1e-6, 'm' := 1e-3, 'k' := 1e3, 'M' := 1e6]

  /** Whether a label is a wavelength label. */
  predicate Wavelength(unit: string)
  {
    |unit| > 0 && unit[0] == 'λ'
  }

  lemma WavelengthFactor(m: Libm, freq: real, er: real)
    ensures SqrtLaw(m) && 0.0 < er && 0.0 < freq ==>
              Net.Quot(C0, freq * m.sqrt(er)) == Num(C0 / (freq * m.sqrt(er)))
  {
    if SqrtLaw(m) && 0.0 < er && 0.0 < freq {
      SqrtPositive(m, er);
      MulPos(freq, m.sqrt(er));
    }
  }

  /** Two labels other than `m` with the same first character have the same factor. */
  lemma {:induction false} FirstCharacterDecides(m: Libm, a: string, b: string, freq: real, er: real)
    requires |a| > 0 && |b| > 0 && a[0] == b[0] && a != "m" && b != "m"
    ensures UnitTextToNum(m, a, freq, er) == UnitTextToNum(m, b, freq, er)
  {
    assert Wavelength(a) == Wavelength(b);
  }

  /**
   * The checks are made in order on the first character: millimetres and
   * milliohms are milli, while in `KΩ` the upper-case `K` is not a prefix.
   */
  lemma OrderedChecks(m: Libm, freq: real, er: real)
    ensures UnitTextToNum(m, "mm", freq, er) == Num(1e-3)
    ensures UnitTextToNum(m, "mΩ", freq, er) == Num(1e-3)
    ensures UnitTextToNum(m, "m", freq, er) == Num(1.0)
    ensures UnitTextToNum(m, "KΩ", freq, er) == Num(1.0)
    ensures UnitTextToNum(m, "Q", freq, er) == Num(1.0)
    ensures UnitTextToNum(m, "K", freq, er) == Num(1.0)
  {
    assert "mm"[0] == 'm' && "mΩ"[0] == 'm' && "KΩ"[0] == 'K';
  }

  /**
   * On the prefixed labels the back end also knows, the front end's factor
   * is the reciprocal of the back end's `Unit::scale`: both convert between
   * the prefixed unit and the base unit, one in each direction.
   */
  lemma {:induction false} PrefixAgreesWithBackEnd(m: Libm, p: char, q: char, freq: real, er: real)
    requires p in "fpnum" && q in "FHΩ"
    ensures Units.UnitFromStr([p, q]).Ok?
    ensures UnitTextToNum(m, [p, q], freq, er).Num?
    ensures UnitTextToNum(m, [p, q], freq, er).v * Units.UnitScale(m, Units.UnitFromStr([p, q]).value) == 1.0
  {
    var s := [p, q];
    assert s[0] == p && s != "m";
    var u := if p == 'f' then Units.Femto else if p == 'p' then Units.Pico
             else if p == 'n' then Units.Nano else if p == 'u' then Units.Micro else Units.Milli;
    assert s in Units.UnitNames(u);
  }

  /**
   * The wavelength label: both ends use the wavelength `3e8 / (freq
   * sqrt(er))`, which the back end calls the unit's scale.
   */
  lemma WavelengthAgreesWithBackEnd(m: Libm, freq: real, er: real)
    requires SqrtLaw(m) && 0.0 < er && 0.0 < freq
    ensures Units.Scalable(m, Units.Lambda(freq, er))
    ensures UnitTextToNum(m, "λ", freq, er) == Num(Units.UnitScale(m, Units.Lambda(freq, er)))
  {
    assert Wavelength("λ");
    SqrtPositive(m, er);
    MulPos(freq, m.sqrt(er));
    WavelengthFactor(m, freq, er);
  }

  // ---------------------------------------------------------------------
  // Frequency units
  // ---------------------------------------------------------------------

  /** The frequency multipliers with a name of their own, and their names. */
  const FREQ_MULTIPLIERS: set<real> := {1.0, 1e3, 1e6, 1e9, 1e12}
  const FREQ_TEXTS: set<string> := {"Hz", "KHz", "MHz", "GHz", "THz"}

  /** `freqUnitToText(multiplier)`: the name of a multiplier; `Hz` for any other number. */
  function FreqUnitToText(multiplier: real): (r: string)
    ensures r in FREQ_TEXTS
    ensures multiplier !in FREQ_MULTIPLIERS ==> r == "Hz"
  {
    if multiplier == 1.0 then "Hz"
    else if multiplier == 1e3 then "KHz"
    else if multiplier == 1e6 then "MHz"
    else if multiplier == 1e9 then "GHz"
    else if multiplier == 1e12 then "THz"
    else "Hz"
  }

  /**
   * The mapping from a selector's text to a multiplier that `updateFromDom`
   * applies to the frequency and span units; other texts leave the unit
   * as it is.  On the five texts it inverts `FreqUnitToText`.
   */
  function FreqTextToMultiplier(t: string): (r: Option<real>)
    ensures r.Some? <==> t in FREQ_TEXTS
    ensures r.Some? ==> r.value in FREQ_MULTIPLIERS && FreqUnitToText(r.value) == t
  {
    if t == "Hz" then Some(1.0)
    else if t == "KHz" then Some(1e3)
    else if t == "MHz" then Some(1e6)
    else if t == "GHz" then Some(1e9)
    else if t == "THz" then Some(1e12)
    else None
  }

  /**
   * Naming a multiplier and reading the name back gives the multiplier
   * exactly when it is one of the five; any other multiplier comes back as 1.
   */
  lemma MultiplierRoundTrip(k: real)
    ensures FreqTextToMultiplier(FreqUnitToText(k)) == Some(k) <==> k in FREQ_MULTIPLIERS
    ensures k !in FREQ_MULTIPLIERS ==> FreqTextToMultiplier(FreqUnitToText(k)) == Some(1.0)
  {
  }

  /** A unit multiplier after a selector change: the selected one, or the old one. */
  function SelectMultiplier(t: string, current: real): (r: real)
    ensures t in FREQ_TEXTS ==> FreqUnitToText(r) == t
    ensures t !in FREQ_TEXTS ==> r == current
  {
    match FreqTextToMultiplier(t)
    case Some(k) => k
    case None => current
  }

  // ---------------------------------------------------------------------
  // Complex reciprocal
  // ---------------------------------------------------------------------

  /** `one_over_complex(real, imaginary)`: the reciprocal `1 / (real + j imaginary)`. */
  function OneOverComplex(re: real, im: real): (r: Complex)
    requires NonZero(Complex(re, im))
    ensures Mul(Complex(re, im), r) == ONE
    ensures r == Inv(Complex(re, im))
  {
    Norm2Positive(Complex(re, im));
    var n := re * re + im * im;
    assert Complex(re / n, -im / n) == Inv(Complex(re, im));
    Complex(re / n, -im / n)
  }

  // ---------------------------------------------------------------------
  // Zero padding
  // ---------------------------------------------------------------------

  function Digit(d: nat): (c: char)
    requires d < 10
    ensures '0' <= c <= '9' && c as int - '0' as int == d
  {
    ('0' as int + d) as char
  }

  predicate AllDigits(s: string)
  {
    forall k :: 0 <= k < |s| ==> '0' <= s[k] <= '9'
  }

  /** The decimal numeral of a natural number, as JavaScript's number-to-string gives it. */
  function DecimalString(n: nat): (r: string)
    ensures |r| >= 1 && AllDigits(r)
    ensures |r| == 1 <==> n < 10
    ensures r[0] == '0' ==> n == 0
  {
    if n < 10 then [Digit(n)] else DecimalString(n / 10) + [Digit(n % 10)]
  }

  /** The number a string of decimal digits denotes. */
  function DecimalValue(s: string): (n: nat)
    requires AllDigits(s)
  {
    if |s| == 0 then 0
    else DecimalValue(s[..|s| - 1]) * 10 + (s[|s| - 1] as int - '0' as int)
  }

  /** The numeral denotes the number. */
  lemma {:induction false} DecimalRoundTrip(n: nat)
    ensures DecimalValue(DecimalString(n)) == n
  {
    var s := DecimalString(n);
    if n >= 10 {
      DecimalRoundTrip(n / 10);
      assert s[..|s| - 1] == DecimalString(n / 10);
    } else {
      assert s[..0] == [];
    }
  }

  /** A leading zero does not change the number a numeral denotes. */
  lemma {:induction false} LeadingZero(s: string)
    requires AllDigits(s)
    ensures AllDigits("0" + s) && DecimalValue("0" + s) == DecimalValue(s)
  {
    if |s| > 0 {
      var t := "0" + s;
      assert t[..|t| - 1] == "0" + s[..|s| - 1];
      LeadingZero(s[..|s| - 1]);
    } else {
      assert ("0" + s)[..0] == [];
    }
  }

  /**
   * `pad(n)`: a two-digit field for the date parts of a file name; `0` is
   * put in front exactly when `n < 10`, and the field still denotes `n`.
   */
  function Pad(n: nat): (r: string)
    ensures |r| >= 2 && AllDigits(r)
    ensures n < 10 <==> r[0] == '0'
    ensures n < 10 <==> |r| == 2 && r[1..] == DecimalString(n)
    ensures DecimalValue(r) == n
  {
    DecimalRoundTrip(n);
    LeadingZero(DecimalString(n));
    var r := if n < 10 then "0" + DecimalString(n) else DecimalString(n);
    assert n < 10 ==> r[1..] == DecimalString(n);
    r
  }

  // ---------------------------------------------------------------------
  // In-place updates of the schematic
  // ---------------------------------------------------------------------

  /** The element after `updatespan`: its unit label `k` is `value`, and nothing else changes. */
  function SpanUpdated(e: Entry, k: nat, value: string): (r: Entry)
    requires IsCurrent(e) && k < |e.unit.xs|
    ensures IsCurrent(r) && |r.unit.xs| == |e.unit.xs|
    ensures r.unit.xs[k] == value
    ensures forall j :: 0 <= j < |e.unit.xs| && j != k ==> r.unit.xs[j] == e.unit.xs[j]
    ensures r.(unit := e.unit) == e
  {
    e.(unit := Array(e.unit.xs[k := value]))
  }

  /** `updatespan(sch_num, obj, unitIndex)`: sets one unit label of one element. */
  method UpdateSpan(s: Schematic, schNum: nat, value: string, unitIndex: nat)
    requires s.Valid()
    requires 1 <= schNum < |s.entries| && unitIndex < |s.entries[schNum].unit.xs|
    modifies s
    ensures s.Valid()
    ensures s.entries == old(s.entries)[schNum := SpanUpdated(old(s.entries)[schNum], unitIndex, value)]
  {
    var e := s.entries[schNum];
    s.entries := s.entries[schNum := e.(unit := Array(e.unit.xs[unitIndex := value]))];
  }

  /**
   * An element of a loaded file after `updateFromOldState`: a single value
   * or label becomes a one-element array, and a black-box imaginary part
   * kept in `abs_bb_i` is appended to the values.
   */
  function Normalized(e: Entry): (r: Entry)
    requires e.Element?
    ensures IsCurrent(r)
    ensures r.abs.xs == AsSeq(e.abs) + (if e.absBbI.Some? then [e.absBbI.value] else [])
    ensures r.unit.xs == AsSeq(e.unit)
    ensures r.(abs := e.abs, unit := e.unit) == e
  {
    var abs := AsSeq(e.abs);
    var abs := if e.absBbI.Some? then abs + [e.absBbI.value] else abs;
    e.(abs := Array(abs), unit := Array(AsSeq(e.unit)))
  }

  /**
   * The `abs_bb_i` property is kept, so normalising an element again
   * appends its value once more; an element without it is normalised once
   * and for all.
   */
  lemma NormalizedAgain(e: Entry)
    requires e.Element?
    ensures e.absBbI.Some? ==> Normalized(Normalized(e)).abs.xs == Normalized(e).abs.xs + [e.absBbI.value]
    ensures e.absBbI.None? ==> Normalized(Normalized(e)) == Normalized(e)
  {
  }

  /** The schematic after `updateFromOldState`: every element normalised, the settings kept. */
  function NormalizedAll(es: seq<Entry>): (r: seq<Entry>)
    requires forall i :: 1 <= i < |es| ==> es[i].Element?
    ensures |r| == |es|
    ensures |es| >= 2 && es[0].Head? ==> WellFormed(r)
  {
    seq(|es|, i requires 0 <= i < |es| => if i == 0 then es[0] else Normalized(es[i]))
  }

  /**
   * The loop of `updateFromOldState` over the elements of a loaded file.
   * Loading a file of the settings and elements in any format gives a
   * schematic the tool can edit.
   */
  method UpdateFromOldState(s: Schematic)
    requires forall i :: 1 <= i < |s.entries| ==> s.entries[i].Element?
    modifies s
    ensures s.entries == NormalizedAll(old(s.entries))
    ensures |old(s.entries)| >= 2 && old(s.entries)[0].Head? ==> s.Valid()
  {
    ghost var es := s.entries;
    var i := 1;
    while i < |s.entries|
      invariant |s.entries| == |es|
      invariant 1 <= i || |es| == 0
      invariant i <= |es| || |es| == 0
      invariant |es| > 0 ==> s.entries[0] == es[0]
      invariant forall k :: 1 <= k < |es| && k < i ==> s.entries[k] == Normalized(es[k])
      invariant forall k :: i <= k < |es| ==> s.entries[k] == es[k]
    {
      var e := s.entries[i];
      if !e.abs.Array? {
        e := e.(abs := Array([e.abs.x]));
      }
      if e.absBbI.Some? {
        e := e.(abs := Array(e.abs.xs + [e.absBbI.value]));
      }
      if !e.unit.Array? {
        e := e.(unit := Array([e.unit.x]));
      }
      s.entries := s.entries[i := e];
      i := i + 1;
    }
    assert s.entries == NormalizedAll(es);
  }

  /** The settings form as `updateFromDom` reads it. */
  datatype Dom = Dom(freq: real, span: real, z0: real, er: real,
                     impSel: string, freqSel: string, spanSel: string)

  /** Whether the switch acts: the selector names the other form than `current`. */
  predicate Fires(sel: string, current: string)
  {
    (sel == "diff" && current == "se") || (sel == "se" && current == "diff")
  }

  /**
   * The single-ended/differential switch, given the text `current` it
   * compares the selector with: a change from `se` to `diff` doubles the
   * black box's impedance, one from `diff` to `se` halves it, and either
   * records the new form in the settings.  The intended comparison is with
   * the settings' `imp`.
   */
  function ImpSwitched(st: Settings, bb: Entry, sel: string, current: string): (r: (Settings, Entry))
    requires IsCurrent(bb) && (Fires(sel, current) ==> |bb.abs.xs| >= 2)
    ensures IsCurrent(r.1)
    ensures Fires(sel, current) ==> r.0 == st.(imp := sel) && |r.1.abs.xs| == 2 && r.1.(abs := bb.abs) == bb
    ensures sel == "diff" && current == "se" ==> r.1.abs.xs == [bb.abs.xs[0] * 2.0, bb.abs.xs[1] * 2.0]
    ensures sel == "se" && current == "diff" ==> r.1.abs.xs == [bb.abs.xs[0] / 2.0, bb.abs.xs[1] / 2.0]
    ensures !Fires(sel, current) ==> r == (st, bb)
  {
    if sel == "diff" && current == "se" then
      (st.(imp := "diff"), bb.(abs := Array([bb.abs.xs[0] * 2.0, bb.abs.xs[1] * 2.0])))
    else if sel == "se" && current == "diff" then
      (st.(imp := "se"), bb.(abs := Array([bb.abs.xs[0] / 2.0, bb.abs.xs[1] / 2.0])))
    else (st, bb)
  }

  /** Switching to differential and back restores a single-ended black box of two values. */
  lemma {:induction false} ImpSwitchRoundTrip(st: Settings, bb: Entry)
    requires IsCurrent(bb) && st.imp == "se" && |bb.abs.xs| == 2
    ensures var d := ImpSwitched(st, bb, "diff", st.imp);
            ImpSwitched(d.0, d.1, "se", d.0.imp) == (st, bb)
  {
    var d := ImpSwitched(st, bb, "diff", st.imp);
    var b := ImpSwitched(d.0, d.1, "se", d.0.imp);
    assert b.1.abs.xs == bb.abs.xs;
  }

  /**
   * JavaScript's `==` between an object and a string compares the object's
   * primitive value, the text `[object Object]`, with the string.
   */
  const OBJECT_TEXT: string := "[object Object]"

  /**
   * The switch as written: it compares the whole settings entry, not its
   * `imp` property, with `se` and `diff`.
   */
  function ImpSwitchedAsWritten(st: Settings, bb: Entry, sel: string): (Settings, Entry)
    requires IsCurrent(bb)
  {
    ImpSwitched(st, bb, sel, OBJECT_TEXT)
  }

  /** As written, a change of the selector reaches neither the settings nor the black box. */
  lemma SwitchAsWrittenNeverFires(st: Settings, bb: Entry, sel: string)
    requires IsCurrent(bb)
    ensures ImpSwitchedAsWritten(st, bb, sel) == (st, bb)
  {
    assert !Fires(sel, OBJECT_TEXT) by {
      assert OBJECT_TEXT[0] == '[';
    }
  }

  /** A single-ended schematic switched to differential: as written, its settings still say `se`. */
  lemma {:induction false} SwitchAsWrittenKeepsSingleEnded(st: Settings, bb: Entry)
    requires IsCurrent(bb) && st.imp == "se" && |bb.abs.xs| >= 2
    ensures ImpSwitchedAsWritten(st, bb, "diff").0.imp == "se"
    ensures ImpSwitched(st, bb, "diff", st.imp).0.imp == "diff"
  {
    SwitchAsWrittenNeverFires(st, bb, "diff");
  }

  /** The settings after `updateFromDom`: the form's numbers, the switch, and the two unit selectors. */
  function SettingsFromDom(st: Settings, dom: Dom): (r: Settings)
    ensures r.freq == dom.freq && r.span == dom.span && r.z0 == dom.z0 && r.er == dom.er
    ensures dom.freqSel in FREQ_TEXTS ==> FreqUnitToText(r.freqMultiplier) == dom.freqSel
    ensures dom.freqSel !in FREQ_TEXTS ==> r.freqMultiplier == st.freqMultiplier
    ensures dom.spanSel in FREQ_TEXTS ==> FreqUnitToText(r.spanMultiplier) == dom.spanSel
    ensures dom.spanSel !in FREQ_TEXTS ==> r.spanMultiplier == st.spanMultiplier
    ensures r.imp == st.imp
  {
    st.(freq := dom.freq, span := dom.span, z0 := dom.z0, er := dom.er,
        freqMultiplier := SelectMultiplier(dom.freqSel, st.freqMultiplier),
        spanMultiplier := SelectMultiplier(dom.spanSel, st.spanMultiplier))
  }

  /**
   * `updateFromDom`: copies the form into the settings entry, applies the
   * single-ended/differential switch to the black box (entry 1), and sets
   * the frequency and span multipliers from their selectors.
   */
  method UpdateFromDom(s: Schematic, dom: Dom)
    requires s.Valid()
    requires Fires(dom.impSel, s.entries[0].settings.imp) ==> |s.entries[1].abs.xs| >= 2
    modifies s
    ensures s.Valid()
    ensures var st := SettingsFromDom(old(s.entries)[0].settings, dom);
            var sw := ImpSwitched(st, old(s.entries)[1], dom.impSel, st.imp);
            s.entries == old(s.entries)[0 := Head(sw.0)][1 := sw.1]
  {
    var st := s.entries[0].settings;
    st := st.(freq := dom.freq, span := dom.span, z0 := dom.z0, er := dom.er);
    var bb := s.entries[1];
    if dom.impSel == "diff" && st.imp == "se" {
      st := st.(imp := "diff");
      bb := bb.(abs := Array([bb.abs.xs[0] * 2.0, bb.abs.xs[1] * 2.0]));
    } else if dom.impSel == "se" && st.imp == "diff" {
      st := st.(imp := "se");
      bb := bb.(abs := Array([bb.abs.xs[0] / 2.0, bb.abs.xs[1] / 2.0]));
    }
    var fk := FreqTextToMultiplier(dom.freqSel);
    if fk.Some? {
      st := st.(freqMultiplier := fk.value);
    }
    var sk := FreqTextToMultiplier(dom.spanSel);
    if sk.Some? {
      st := st.(spanMultiplier := sk.value);
    }
    s.entries := s.entries[0 := Head(st)][1 := bb];
  }
}
