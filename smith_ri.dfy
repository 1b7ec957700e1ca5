/**
 * The element evaluators of `smith.rs`: `calc_ri` (an element's own
 * normalised impedance), `calc_ri_new` (the impedance seen after adding an
 * element to a given input impedance), `calc_ri_custom` (a frequency lookup
 * table) and `calc_ri_tline` (lines and stubs on their own).
 */
module SmithRi {
  import opened Wrappers
  import opened Numeric
  import R = RfUtils
  import C = Capacitors
  import I = Inductors
  import RL = Rlcs
  import T = Transformers

  /** The wavelength unit parses as `Lambda(1, 1)`; its scale needs `sqrt(1) != 0`. */
  predicate LibmOk(m: Libm)
  {
    m.sqrt(1.0) != 0.0
  }

  lemma ParsedScalable(m: Libm, s: string)
    requires LibmOk(m)
    ensures R.Scalable(m, R.UnitFromStr(s).value)
  {
  }

  /** `unscale(v, &Unit::from_str(s).unwrap())`. */
  function Unscale(m: Libm, v: real, s: string): real
    requires LibmOk(m)
  {
    ParsedScalable(m, s);
    R.UnscaleVal(m, v, R.UnitFromStr(s).value)
  }

  /** The empty unit string is the base unit, so a value is left as it is. */
  lemma UnscaleBase(m: Libm, v: real)
    requires LibmOk(m)
    ensures Unscale(m, v, "") == v
  {
    assert R.UnitFromStr("") == Ok(R.Base);
    assert R.UnitScale(m, R.Base) == 1.0;
  }

  /** The element tags both evaluators accept. */
  const RI_TAGS: set<string> :=
    {"bb", "sr", "pr", "sc", "pc", "si", "pi", "xfmr", "rlc", "rl", "rc", "tl", "so", "ss", "customZ"}

  // ---------------------------------------------------------------------
  // The customZ lookup table
  // ---------------------------------------------------------------------

  /** A lookup-table row `[frequency, re, im]`. */
  type Row = (real, real, real)

  /**
   * The index the customZ search settles on: the first row whose frequency
   * exceeds `f`, or the last row when none does.
   */
  function FirstAbove(lut: seq<Row>, f: real): (idx: nat)
    requires |lut| > 0
    ensures idx < |lut|
    ensures forall j :: 0 <= j < idx ==> lut[j].0 <= f
    ensures (exists i :: 0 <= i < |lut| && lut[i].0 > f) ==> lut[idx].0 > f
    ensures (forall i :: 0 <= i < |lut| ==> lut[i].0 <= f) ==> idx == |lut| - 1
  {
    FirstAboveFrom(lut, f, 0)
  }

  function FirstAboveFrom(lut: seq<Row>, f: real, k: nat): (idx: nat)
    requires k < |lut| && forall j :: 0 <= j < k ==> lut[j].0 <= f
    ensures k <= idx < |lut|
    ensures forall j :: 0 <= j < idx ==> lut[j].0 <= f
    ensures (exists i :: k <= i < |lut| && lut[i].0 > f) ==> lut[idx].0 > f
    ensures (forall i :: k <= i < |lut| ==> lut[i].0 <= f) ==> idx == |lut| - 1
    decreases |lut| - k
  {
    if lut[k].0 > f || k == |lut| - 1 then k else FirstAboveFrom(lut, f, k + 1)
  }

  /**
   * The search loop of the customZ arm: scan the rows and stop at the first
   * whose frequency exceeds `f`.
   */
  method CustomZIndex(lut: seq<Row>, f: real) returns (idx: nat)
    requires |lut| > 0
    ensures idx == FirstAbove(lut, f)
  {
    idx := |lut| - 1;
    var i := 0;
    while i < |lut|
      invariant 0 <= i <= |lut|
      invariant forall j :: 0 <= j < i ==> lut[j].0 <= f
    {
      if lut[i].0 > f {
        idx := i;
        break;
      }
      i := i + 1;
    }
    if i < |lut| {
      assert lut[i].0 > f;
    }
  }

  /** The row pair a lookup interpolates between, when it does. */
  predicate InteriorIndex(lut: seq<Row>, f: real)
    requires |lut| > 0
  {
    0 < FirstAbove(lut, f) && lut[FirstAbove(lut, f)].0 > f
  }

  /** `a + frac (b - a)`. */
  function Lerp(a: real, b: real, frac: real): real
  {
    a + frac * (b - a)
  }

  /** For `0 <= frac <= 1` the interpolation stays between its two ends. */
  lemma {:induction false} LerpBetween(a: real, b: real, frac: real)
    requires 0.0 <= frac <= 1.0
    ensures a <= b ==> a <= Lerp(a, b, frac) <= b
    ensures b <= a ==> b <= Lerp(a, b, frac) <= a
  {
    if a <= b {
      MulNonneg(frac, b - a);
      MulNonneg(1.0 - frac, b - a);
    } else {
      MulNonneg(frac, a - b);
      MulNonneg(1.0 - frac, a - b);
    }
  }

  /**
   * The lookup value at frequency `f` as the source computes it: the found
   * row itself when it is the first or the last row, else the interpolation
   * between the found row and the one before it.
   */
  function CustomZAsWritten(lut: seq<Row>, f: real): (z: (real, real))
    requires |lut| > 0
    ensures FirstAbove(lut, f) == 0 || FirstAbove(lut, f) == |lut| - 1 ==>
      z == (lut[FirstAbove(lut, f)].1, lut[FirstAbove(lut, f)].2)
  {
    var i := FirstAbove(lut, f);
    if i == |lut| - 1 || i == 0 then (lut[i].1, lut[i].2)
    else
      var f1 := lut[i - 1].0;
      var f2 := lut[i].0;
      var frac := (f - f1) / (f2 - f1);
      (Lerp(lut[i - 1].1, lut[i].1, frac), Lerp(lut[i - 1].2, lut[i].2, frac))
  }

  /**
   * A frequency strictly inside the last interval of a table is answered with
   * the last row's value instead of an interpolation: the test for "no row
   * lies above" also fires when the row found is the last one.
   */
  lemma CustomZLastIntervalNotInterpolated()
    ensures var lut := [(1.0, 0.0, 0.0), (2.0, 10.0, 0.0), (3.0, 20.0, 0.0)];
      lut[1].0 < 2.5 < lut[2].0 && FirstAbove(lut, 2.5) == 2 && CustomZAsWritten(lut, 2.5) == (20.0, 0.0)
  {
    var lut := [(1.0, 0.0, 0.0), (2.0, 10.0, 0.0), (3.0, 20.0, 0.0)];
    assert FirstAboveFrom(lut, 2.5, 2) == 2;
    assert FirstAboveFrom(lut, 2.5, 1) == 2;
  }

  /**
   * The lookup with the intended test: interpolate whenever a row above `f`
   * was found after the first row, the last row included.
   */
  function CustomZ(lut: seq<Row>, f: real): (z: (real, real))
    requires |lut| > 0
    ensures !InteriorIndex(lut, f) ==> z == (lut[FirstAbove(lut, f)].1, lut[FirstAbove(lut, f)].2)
  {
    var i := FirstAbove(lut, f);
    if !InteriorIndex(lut, f) then (lut[i].1, lut[i].2)
    else
      var f1 := lut[i - 1].0;
      var f2 := lut[i].0;
      var frac := (f - f1) / (f2 - f1);
      (Lerp(lut[i - 1].1, lut[i].1, frac), Lerp(lut[i - 1].2, lut[i].2, frac))
  }

  /**
   * When the table brackets `f`, the corrected lookup interpolates between
   * the two rows around `f`, and its value lies between theirs.
   */
  lemma {:induction false} CustomZBracketed(lut: seq<Row>, f: real)
    requires |lut| > 0 && lut[0].0 <= f < lut[|lut| - 1].0
    ensures InteriorIndex(lut, f)
    ensures var i := FirstAbove(lut, f);
      lut[i - 1].0 <= f < lut[i].0 &&
      (lut[i - 1].1 <= lut[i].1 ==> lut[i - 1].1 <= CustomZ(lut, f).0 <= lut[i].1) &&
      (lut[i].1 <= lut[i - 1].1 ==> lut[i].1 <= CustomZ(lut, f).0 <= lut[i - 1].1) &&
      (lut[i - 1].2 <= lut[i].2 ==> lut[i - 1].2 <= CustomZ(lut, f).1 <= lut[i].2) &&
      (lut[i].2 <= lut[i - 1].2 ==> lut[i].2 <= CustomZ(lut, f).1 <= lut[i - 1].2)
  {
    var i := FirstAbove(lut, f);
    assert lut[|lut| - 1].0 > f;
    assert lut[i].0 > f;
    assert i != 0;
    var f1 := lut[i - 1].0;
    var f2 := lut[i].0;
    assert f1 <= f < f2;
    var frac := (f - f1) / (f2 - f1);
    FractionBelowOne(f - f1, f2 - f1);
    LerpBetween(lut[i - 1].1, lut[i].1, frac);
    LerpBetween(lut[i - 1].2, lut[i].2, frac);
  }

  lemma FractionBelowOne(a: real, d: real)
    requires 0.0 <= a < d
    ensures 0.0 <= a / d < 1.0
  {
    var q := a / d;
    assert q * d == a;
    if q >= 1.0 {
      MulNonneg(q - 1.0, d);
    }
  }

  /** The two lookups differ only where the as-written one skips the last interval. */
  lemma {:induction false} CustomZAgreesElsewhere(lut: seq<Row>, f: real)
    requires |lut| > 0 && FirstAbove(lut, f) != |lut| - 1
    ensures CustomZ(lut, f) == CustomZAsWritten(lut, f)
  {
  }


  // ---------------------------------------------------------------------
  // Element tags
  // ---------------------------------------------------------------------

  /** The element tags of `calc_ri` and `calc_ri_new`. */
  datatype Tag = Bb | Sr | Pr | Sc | Pc | Si | Pi | Xfmr | Rlc | Rl | Rc | Tl | So | Ss | Custom

  /** The tag named by a `type_` string; any other string is the evaluators' error. */
  function TagOf(s: string): (r: Result<Tag>)
    ensures r.Ok? <==> s in RI_TAGS
    ensures r.Err? ==> r.error == "element not recognized"
  {
    match s
    case "bb" => Ok(Bb)
    case "sr" => Ok(Sr)
    case "pr" => Ok(Pr)
    case "sc" => Ok(Sc)
    case "pc" => Ok(Pc)
    case "si" => Ok(Si)
    case "pi" => Ok(Pi)
    case "xfmr" => Ok(Xfmr)
    case "rlc" => Ok(Rlc)
    case "rl" => Ok(Rl)
    case "rc" => Ok(Rc)
    case "tl" => Ok(Tl)
    case "so" => Ok(So)
    case "ss" => Ok(Ss)
    case "customZ" => Ok(Custom)
    case _ => Err("element not recognized")
  }

  /** The number of `vals` (and, but for `bb`, `units`) entries each tag reads. */
  function Arity(t: Tag): nat
  {
    match t
    case Bb | Sc | Pc | Si | Pi | Rl | Rc => 2
    case Sr | Pr | Tl | So | Ss => 1
    case Rlc => 3
    case Xfmr => 4
    case Custom => 0
  }

  /** The elements `calc_ri_new` combines in parallel with the input. */
  predicate IsShunt(t: Tag)
  {
    t in {Pr, Pc, Pi, Rlc, Rl, Rc, So, Ss}
  }

  /** The elements `calc_ri_new` adds in series to the input. */
  predicate IsSeries(t: Tag)
  {
    t in {Bb, Sr, Sc, Si, Custom}
  }

  // ---------------------------------------------------------------------
  // Element impedances
  // ---------------------------------------------------------------------

  /**
   * The series resistance (`tmp`) of a capacitor of susceptance `wc`: none
   * when the first value is 0, `1 / (wc Q)` when the first value is a quality
   * factor, else the first value in ohms, `r0`.
   */
  function CapResistance(v0: real, qMode: bool, r0: real, wc: real): real
    requires wc != 0.0
  {
    if v0 == 0.0 then 0.0
    else if qMode then (MulNonZero(wc, v0); 1.0 / (wc * v0))
    else r0
  }

  /** The series resistance of an inductor of reactance `x`: `x / Q` in Q mode. */
  function IndResistance(v0: real, qMode: bool, r0: real, x: real): real
  {
    if v0 == 0.0 then 0.0
    else if qMode then x / v0
    else r0
  }

  /** A capacitor with its series resistance: `tmp - j / (w C)`. */
  function CapZ(v0: real, qMode: bool, r0: real, wc: real): Complex
    requires wc != 0.0
  {
    Complex(CapResistance(v0, qMode, r0, wc), -1.0 / wc)
  }

  /** An inductor with its series resistance: `tmp + j w L`. */
  function IndZ(v0: real, qMode: bool, r0: real, x: real): Complex
  {
    Complex(IndResistance(v0, qMode, r0, x), x)
  }

  /** The series RLC branch `R + j (w L - 1 / (w C))`. */
  function RlcZ(r: real, xl: real, wc: real): Complex
    requires wc != 0.0
  {
    Complex(r, xl - 1.0 / wc)
  }

  /** The `rc` branch as the source builds it: `1 / R - j / (w C)`. */
  function RcZ(r: real, wc: real): Complex
    requires r != 0.0 && wc != 0.0
  {
    Complex(1.0 / r, -1.0 / wc)
  }

  /** The lumped elements: resistor, capacitor and inductor, in series or shunt, and the three branches. */
  predicate IsLumped(t: Tag)
  {
    t in {Sr, Pr, Sc, Pc, Si, Pi, Rlc, Rl, Rc}
  }

  /** `unscale(vals[i], units[i])`. */
  function UnscaledAt(m: Libm, vals: seq<real>, units: seq<string>, i: nat): real
    requires LibmOk(m) && i < |vals| && i < |units|
  {
    Unscale(m, vals[i], units[i])
  }

  /**
   * The values the lumped element `t` reads exist, and what it divides by at
   * angular frequency `w` is non-zero.
   */
  predicate LumpedDefined(m: Libm, t: Tag, vals: seq<real>, units: seq<string>, w: real)
    requires LibmOk(m)
  {
    |vals| >= Arity(t) && |units| >= Arity(t) &&
    match t
    case Sc | Pc => w * UnscaledAt(m, vals, units, 1) != 0.0
    case Rc => w * UnscaledAt(m, vals, units, 1) != 0.0 && UnscaledAt(m, vals, units, 0) != 0.0
    case Rlc => w * UnscaledAt(m, vals, units, 2) != 0.0
    case _ => true
  }

  /**
   * The impedance in ohms of the lumped element `t` at angular frequency
   * `w`, from its values and their units; both evaluators build their
   * lumped arms from it.
   */
  function LumpedZ(m: Libm, t: Tag, vals: seq<real>, units: seq<string>, w: real): Complex
    requires LibmOk(m) && IsLumped(t) && LumpedDefined(m, t, vals, units, w)
  {
    var u0 := UnscaledAt(m, vals, units, 0);
    match t
    case Sr | Pr => Real(u0)
    case Sc | Pc => CapZ(vals[0], units[0] == "Q", u0, w * UnscaledAt(m, vals, units, 1))
    case Si | Pi => IndZ(vals[0], units[0] == "Q", u0, w * UnscaledAt(m, vals, units, 1))
    case Rlc => RlcZ(u0, w * UnscaledAt(m, vals, units, 1), w * UnscaledAt(m, vals, units, 2))
    case Rl => Complex(u0, w * UnscaledAt(m, vals, units, 1))
    case Rc => RcZ(u0, w * UnscaledAt(m, vals, units, 1))
  }

  /** A zero value stays zero whatever its unit. */
  lemma UnscaleZero(m: Libm, s: string)
    requires LibmOk(m)
    ensures Unscale(m, 0.0, s) == 0.0
  {
  }

  /** The resistor arms are the bare resistance. */
  lemma LumpedResistor(m: Libm, t: Tag, vals: seq<real>, units: seq<string>, w: real)
    requires LibmOk(m) && t in {Sr, Pr} && LumpedDefined(m, t, vals, units, w)
    ensures LumpedZ(m, t, vals, units, w) == Real(UnscaledAt(m, vals, units, 0))
  {
  }

  /**
   * The capacitor arms are the capacitor of `capacitor.rs`, the first value
   * a quality factor when its unit string is `Q`.
   */
  lemma LumpedCapacitor(m: Libm, t: Tag, vals: seq<real>, units: seq<string>, w: real)
    requires LibmOk(m) && t in {Sc, Pc} && LumpedDefined(m, t, vals, units, w)
    ensures LumpedZ(m, t, vals, units, w)
      == C.LossyCapacitor(units[0] == "Q", vals[0], UnscaledAt(m, vals, units, 0), w * UnscaledAt(m, vals, units, 1))
  {
    var u0, wc := UnscaledAt(m, vals, units, 0), w * UnscaledAt(m, vals, units, 1);
    assert LumpedZ(m, t, vals, units, w) == CapZ(vals[0], units[0] == "Q", u0, wc);
    if vals[0] == 0.0 {
      UnscaleZero(m, units[0]);
    }
    CapZIsLossy(vals[0], units[0] == "Q", u0, wc);
  }

  /** The inductor arms are the inductor of `inductor.rs`, in the same two modes. */
  lemma LumpedInductor(m: Libm, t: Tag, vals: seq<real>, units: seq<string>, w: real)
    requires LibmOk(m) && t in {Si, Pi} && LumpedDefined(m, t, vals, units, w)
    ensures LumpedZ(m, t, vals, units, w)
      == I.LossyInductor(units[0] == "Q", vals[0], UnscaledAt(m, vals, units, 0), w * UnscaledAt(m, vals, units, 1))
  {
    var u0, x := UnscaledAt(m, vals, units, 0), w * UnscaledAt(m, vals, units, 1);
    assert LumpedZ(m, t, vals, units, w) == IndZ(vals[0], units[0] == "Q", u0, x);
    if vals[0] == 0.0 {
      UnscaleZero(m, units[0]);
    }
    IndZIsLossy(vals[0], units[0] == "Q", u0, x);
  }

  /** The `rlc` arm is the series branch of `rlc.rs`. */
  lemma LumpedRlc(m: Libm, vals: seq<real>, units: seq<string>, w: real)
    requires LibmOk(m) && LumpedDefined(m, Rlc, vals, units, w)
    ensures LumpedZ(m, Rlc, vals, units, w)
      == RL.SeriesRlc(UnscaledAt(m, vals, units, 0), w * UnscaledAt(m, vals, units, 1), false, w * UnscaledAt(m, vals, units, 2))
  {
    RlcZIsSeries(UnscaledAt(m, vals, units, 0), w * UnscaledAt(m, vals, units, 1), w * UnscaledAt(m, vals, units, 2));
  }

  /** The `rl` arm is the series branch of `rlc.rs` without its capacitor. */
  lemma LumpedRl(m: Libm, vals: seq<real>, units: seq<string>, w: real)
    requires LibmOk(m) && LumpedDefined(m, Rl, vals, units, w)
    ensures LumpedZ(m, Rl, vals, units, w) == RL.SeriesRlc(UnscaledAt(m, vals, units, 0), w * UnscaledAt(m, vals, units, 1), true, 0.0)
  {
  }

  /** A capacitor whose resistance vanishes with its first value is the capacitor model. */
  lemma CapZIsLossy(v0: real, qMode: bool, r0: real, wc: real)
    requires wc != 0.0 && (v0 == 0.0 ==> r0 == 0.0)
    ensures CapZ(v0, qMode, r0, wc) == C.LossyCapacitor(qMode, v0, r0, wc)
  {
  }

  /** An inductor whose resistance vanishes with its first value is the inductor model. */
  lemma IndZIsLossy(v0: real, qMode: bool, r0: real, x: real)
    requires v0 == 0.0 ==> r0 == 0.0
    ensures IndZ(v0, qMode, r0, x) == I.LossyInductor(qMode, v0, r0, x)
  {
  }

  /** The RLC branch is the series branch of `rlc.rs` with its capacitor. */
  lemma RlcZIsSeries(r: real, xl: real, wc: real)
    requires wc != 0.0
    ensures RlcZ(r, xl, wc) == RL.SeriesRlc(r, xl, false, wc)
  {
  }

  /**
   * In Q mode the first value is the capacitor's quality factor: its
   * reactance over its resistance is that value.
   */
  lemma {:induction false} CapQuality(v0: real, r0: real, wc: real)
    requires v0 != 0.0 && wc != 0.0
    ensures var z := CapZ(v0, true, r0, wc); z.re != 0.0 && -z.im / z.re == v0
  {
    MulNonZero(wc, v0);
    var z := CapZ(v0, true, r0, wc);
    assert z.re == 1.0 / (wc * v0);
    assert z.re * v0 == 1.0 / wc;
  }

  /** In Q mode the inductor's reactance over its resistance is the first value. */
  lemma {:induction false} IndQuality(v0: real, r0: real, x: real)
    requires v0 != 0.0 && x != 0.0
    ensures var z := IndZ(v0, true, r0, x); z.re != 0.0 && z.im / z.re == v0
  {
    var z := IndZ(v0, true, r0, x);
    assert z.re == x / v0;
    assert z.re * v0 == x;
  }

  /** A first value of 0 makes the element lossless, in either mode. */
  lemma LosslessWithoutFirstValue(qMode: bool, r0: real, w: real)
    requires w != 0.0
    ensures CapZ(0.0, qMode, r0, w).re == 0.0 && IndZ(0.0, qMode, r0, w).re == 0.0
  {
  }

  // ---------------------------------------------------------------------
  // The transformer's tee
  // ---------------------------------------------------------------------

  /** The tee-equivalent legs of a transformer and its winding resistances. */
  datatype Legs = Legs(l1Tee: real, l2Tee: real, lsTee: real, r1: real, r2: real)

  /** Outside K mode the coupling is `m / l1`, so the primary inductance is non-zero. */
  predicate XfmrDefined(m: Libm, vals: seq<real>, units: seq<string>)
  {
    LibmOk(m) && |vals| >= 4 && |units| >= 4 && (units[3] != "k" ==> Primary(m, vals, units) != 0.0)
  }

  /** The primary inductance. */
  function Primary(m: Libm, vals: seq<real>, units: seq<string>): real
    requires LibmOk(m) && |vals| >= 4 && |units| >= 4
  {
    Unscale(m, vals[1], units[1])
  }

  /** The secondary inductance: `n^2 l1` for a turns ratio, else the unscaled value. */
  function Secondary(m: Libm, vals: seq<real>, units: seq<string>): real
    requires LibmOk(m) && |vals| >= 4 && |units| >= 4
  {
    if units[2] == "n" then vals[2] * vals[2] * Primary(m, vals, units)
    else Unscale(m, vals[2], units[2])
  }

  /**
   * The coupling coefficient and the shunt leg: `k` and `k l1` for a coupling
   * coefficient `k`, `m / l1` and the mutual inductance `m` otherwise.
   */
  function Coupling(kMode: bool, k: real, l1: real, mm: real): (c: (real, real))
    requires kMode || l1 != 0.0
    ensures c.0 * l1 == c.1
    ensures c.1 == if kMode then k * l1 else mm
  {
    if kMode then (k, k * l1)
    else
      RecipCancel(mm, l1);
      (mm / l1, mm)
  }

  lemma RecipCancel(a: real, b: real)
    requires b != 0.0
    ensures (a / b) * b == a
  {
  }

  /**
   * The tee of windings `l1`, `l2` with coupling `k` and shunt leg `ls`; the
   * resistances are `2 pi freq l / Q` in Q mode (with the frequency as given)
   * and the first value otherwise.
   */
  function Tee(qMode: bool, v0: real, freq: real, l1: real, l2: real, k: real, ls: real): Legs
  {
    if qMode && v0 != 0.0 then
      Legs((1.0 - k) * l1, (1.0 - k) * l2, ls, 2.0 * PI * freq * l1 / v0, 2.0 * PI * freq * l2 / v0)
    else Legs((1.0 - k) * l1, (1.0 - k) * l2, ls, v0, v0)
  }

  /**
   * The `xfmr` arm: the tee legs `(1 - k) l1`, `(1 - k) l2` and the shunt
   * leg, and the winding resistances.
   */
  function XfmrLegs(m: Libm, vals: seq<real>, units: seq<string>, freq: real): Legs
    requires XfmrDefined(m, vals, units)
  {
    var l1 := Primary(m, vals, units);
    var c := Coupling(units[3] == "k", vals[3], l1, Unscale(m, vals[3], units[3]));
    Tee(units[0] == "Q", vals[0], freq, l1, Secondary(m, vals, units), c.0, c.1)
  }

  /**
   * When the shunt leg is the coupled part `k l1` (as `Coupling` makes it in
   * both modes), the legs split the windings: the primary leg and the shunt
   * leg add up to the primary inductance, and the secondary leg is the
   * secondary inductance less its coupled part.
   */
  lemma {:induction false} TeeSplit(qMode: bool, v0: real, freq: real, l1: real, l2: real, k: real, ls: real)
    requires k * l1 == ls
    ensures var g := Tee(qMode, v0, freq, l1, l2, k, ls);
      g.l1Tee + g.lsTee == l1 && g.l2Tee * l1 == (l1 - g.lsTee) * l2
  {
    calc { ((1.0 - k) * l2) * l1; == (l1 - k * l1) * l2; == (l1 - ls) * l2; }
  }

  /** The winding resistances keep the turns ratio: `r2 l1 == r1 l2` in Q mode. */
  lemma {:induction false} TeeResistanceRatio(v0: real, freq: real, l1: real, l2: real, k: real, ls: real)
    requires v0 != 0.0
    ensures var g := Tee(true, v0, freq, l1, l2, k, ls); g.r2 * l1 == g.r1 * l2
  {
    var w := Angular(freq);
    assert (w * l2 / v0) * l1 == (w * l1 / v0) * l2 by {
      assert (w * l2 / v0) * l1 == (w * l2 * l1) / v0;
      assert (w * l1 / v0) * l2 == (w * l1 * l2) / v0;
    }
  }

  // ---------------------------------------------------------------------
  // calc_ri
  // ---------------------------------------------------------------------

  /** The arguments of `calc_ri`. */
  datatype RiArgs = RiArgs(vals: seq<real>, units: seq<string>, lut: seq<Row>, kind: string,
                           freq: real, z0: real, diff: bool)

  /** What the arm for `t` divides by is non-zero, and the values it reads exist. */
  predicate RiTagDefined(m: Libm, a: RiArgs, t: Tag)
    requires LibmOk(m)
  {
    |a.vals| >= Arity(t) && (t != Bb ==> |a.units| >= Arity(t)) &&
    (IsLumped(t) ==> LumpedDefined(m, t, a.vals, a.units, Angular(a.freq))) &&
    match t
    case Xfmr => XfmrDefined(m, a.vals, a.units)
    case Custom => |a.lut| > 0
    case _ => true
  }

  predicate RiDefined(m: Libm, a: RiArgs)
  {
    LibmOk(m) && a.z0 != 0.0 && (TagOf(a.kind).Ok? ==> RiTagDefined(m, a, TagOf(a.kind).value))
  }

  /** The black box's impedance: its two values, halved when it is differential. */
  function BlackBoxZ(v: seq<real>, diff: bool): Complex
    requires |v| >= 2
  {
    if diff then Complex(v[0] / 2.0, v[1] / 2.0) else Complex(v[0], v[1])
  }

  /** The table's impedance at `f`, as a complex number. */
  function TableZ(lut: seq<Row>, f: real): Complex
    requires |lut| > 0
  {
    Complex(CustomZ(lut, f).0, CustomZ(lut, f).1)
  }

  /** An impedance normalised by `z0`, as `calc_ri` reports it: `[re, im, 0]`. */
  function Norm3(z: Complex, z0: real): seq<real>
    requires z0 != 0.0
  {
    [z.re / z0, z.im / z0, 0.0]
  }

  /**
   * `calc_ri`: for a recognised tag, the three values of its arm; any other
   * tag is an error.
   */
  function CalcRi(m: Libm, a: RiArgs): (r: Result<seq<real>>)
    requires RiDefined(m, a)
    ensures r.Err? <==> a.kind !in RI_TAGS
    ensures r.Err? ==> r.error == "element not recognized"
    ensures r.Ok? ==> |r.value| == 3
    ensures r.Ok? ==> r.value == RiValue(m, a, TagOf(a.kind).value)
  {
    match TagOf(a.kind)
    case Err(e) => Err(e)
    case Ok(t) => Ok(RiValue(m, a, t))
  }

  /**
   * One arm of `calc_ri`: the element's own impedance normalised by `z0` as
   * `[re, im, 0]`; a line's unscaled length as `[0, 0, len]`; a transformer's
   * three tee legs.
   */
  function RiValue(m: Libm, a: RiArgs, t: Tag): (r: seq<real>)
    requires LibmOk(m) && a.z0 != 0.0 && RiTagDefined(m, a, t)
    ensures |r| == 3
    ensures t == Bb ==> r == Norm3(BlackBoxZ(a.vals, a.diff), a.z0)
    ensures IsLumped(t) ==> r == Norm3(LumpedZ(m, t, a.vals, a.units, Angular(a.freq)), a.z0)
    ensures t == Custom ==> r == Norm3(TableZ(a.lut, a.freq), a.z0)
    ensures t in {Tl, So, Ss} ==> r == [0.0, 0.0, UnscaledAt(m, a.vals, a.units, 0)]
    ensures t == Xfmr ==> var g := XfmrLegs(m, a.vals, a.units, a.freq); r == [g.l1Tee, g.l2Tee, g.lsTee]
  {
    var v := a.vals;
    match t
    case Bb =>
      if a.diff then [v[0] / 2.0 / a.z0, v[1] / 2.0 / a.z0, 0.0]
      else [v[0] / a.z0, v[1] / a.z0, 0.0]
    case Xfmr =>
      var g := XfmrLegs(m, v, a.units, a.freq);
      [g.l1Tee, g.l2Tee, g.lsTee]
    case Tl | So | Ss => [0.0, 0.0, UnscaledAt(m, v, a.units, 0)]
    case Custom => Norm3(TableZ(a.lut, a.freq), a.z0)
    case Sr | Pr | Sc | Pc | Si | Pi | Rlc | Rl | Rc => Norm3(LumpedZ(m, t, v, a.units, Angular(a.freq)), a.z0)
  }

  /** A differential black box reports half of what a single-ended one does. */
  lemma {:induction false} CalcRiDiffHalves(m: Libm, a: RiArgs)
    requires RiDefined(m, a) && a.kind == "bb"
    ensures RiDefined(m, a.(diff := !a.diff))
    ensures var d := CalcRi(m, a.(diff := true)).value;
      var s := CalcRi(m, a.(diff := false)).value;
      d[0] * 2.0 == s[0] && d[1] * 2.0 == s[1] && d[2] == s[2] == 0.0
  {
    assert TagOf(a.kind) == Ok(Bb);
    HalfOfNormalised(a.vals[0], a.z0);
    HalfOfNormalised(a.vals[1], a.z0);
  }

  lemma HalfOfNormalised(v: real, z0: real)
    requires z0 != 0.0
    ensures v / 2.0 / z0 * 2.0 == v / z0
  {
    var q := v / z0;
    assert q * z0 == v;
    assert v / 2.0 == (q / 2.0) * z0;
  }

  /** `calc_ri` does not tell a series element from a shunt one. */
  lemma CalcRiOrientationBlind(m: Libm, a: RiArgs)
    requires LibmOk(m) && a.z0 != 0.0
    ensures RiTagDefined(m, a, Sr) ==> RiTagDefined(m, a, Pr) && RiValue(m, a, Sr) == RiValue(m, a, Pr)
    ensures RiTagDefined(m, a, Sc) ==> RiTagDefined(m, a, Pc) && RiValue(m, a, Sc) == RiValue(m, a, Pc)
    ensures RiTagDefined(m, a, Si) ==> RiTagDefined(m, a, Pi) && RiValue(m, a, Si) == RiValue(m, a, Pi)
  {
  }

  /** Normalising by `z0` keeps the ratio of reactance to resistance. */
  lemma {:induction false} Norm3KeepsRatio(z: Complex, z0: real)
    requires z.re != 0.0 && z0 != 0.0
    ensures var r := Norm3(z, z0); r[0] != 0.0 && r[1] / r[0] == z.im / z.re
  {
    MulNonZero(z.re, 1.0 / z0);
    assert z.re / z0 == z.re * (1.0 / z0);
  }

  /** For a line or stub `calc_ri` only reports the unscaled length. */
  lemma CalcRiLine(m: Libm, a: RiArgs, t: Tag)
    requires LibmOk(m) && a.z0 != 0.0 && t in {Tl, So, Ss} && RiTagDefined(m, a, t)
    ensures RiValue(m, a, t) == [0.0, 0.0, Unscale(m, a.vals[0], a.units[0])]
  {
  }

  // ---------------------------------------------------------------------
  // calc_ri_new
  // ---------------------------------------------------------------------

  /** The arguments of `calc_ri_new`; `(rin, xin)` is the normalised input impedance. */
  datatype RiNewArgs = RiNewArgs(vals: seq<real>, units: seq<string>, length: real, lineZ0: real,
                                 lut: seq<Row>, kind: string, freq: real, freqUnit: string,
                                 z0: real, er: real, rin: real, xin: real, diff: bool)

  /** `zin`, the input impedance in ohms. */
  function Zin(a: RiNewArgs): Complex
  {
    Complex(a.rin * a.z0, a.xin * a.z0)
  }

  /** The angular frequency `2 pi unscale(freq, freq_unit)`. */
  function Omega(m: Libm, a: RiNewArgs): real
    requires LibmOk(m)
  {
    Angular(Unscale(m, a.freq, a.freqUnit))
  }

  /** The electrical length of a line or stub, `w sqrt(er) len`. */
  function BetaL(m: Libm, a: RiNewArgs): real
    requires LibmOk(m) && 0.0 <= a.er
  {
    Omega(m, a) * Sqrt(m, a.er) * a.length
  }

  /** `z / z0` as the two-element result. */
  function Out(z: Complex, z0: real): seq<real>
    requires z0 != 0.0
  {
    [z.re / z0, z.im / z0]
  }

  /** A two-element result scaled back to ohms by `z0`. */
  function Scaled(r: seq<real>, z0: real): Complex
    requires |r| == 2
  {
    Complex(r[0] * z0, r[1] * z0)
  }

  /** The parallel combination `(1/a + 1/b)^-1` is defined. */
  predicate ShuntDefined(a: Complex, b: Complex)
  {
    NonZero(a) && NonZero(b) && NonZero(Add(Inv(a), Inv(b)))
  }

  /** `(a.inv() + b.inv()).inv()`: two impedances in parallel; admittances add. */
  function Shunt(a: Complex, b: Complex): (p: Complex)
    requires ShuntDefined(a, b)
    ensures NonZero(p) && Inv(p) == Add(Inv(a), Inv(b))
  {
    InvInv(Add(Inv(a), Inv(b)));
    Inv(Add(Inv(a), Inv(b)))
  }

  /** Parallel combination does not depend on the order of the two branches. */
  lemma ShuntSymmetric(a: Complex, b: Complex)
    requires ShuntDefined(a, b)
    ensures ShuntDefined(b, a) && Shunt(a, b) == Shunt(b, a)
  {
    assert Add(Inv(a), Inv(b)) == Add(Inv(b), Inv(a));
  }

  /**
   * `line_z0 (zin + j line_z0 t) / (line_z0 + j zin t)` with `t = tan(betal)`:
   * the impedance seen through a line of impedance `line_z0`.
   */
  function LineTransform(zin: Complex, lineZ0: real, tn: real): Complex
    requires NonZero(Add(Real(lineZ0), J(Scale(zin, tn))))
  {
    var num := Add(zin, Complex(0.0, lineZ0 * tn));
    Scale(Div(num, Add(Real(lineZ0), J(Scale(zin, tn)))), lineZ0)
  }

  /** The transformed impedance solves the line equation. */
  lemma {:induction false} LineTransformSolves(zin: Complex, lineZ0: real, tn: real)
    requires NonZero(Add(Real(lineZ0), J(Scale(zin, tn))))
    ensures LineEquation(zin, lineZ0, tn, LineTransform(zin, lineZ0, tn))
  {
    var num := Add(zin, Complex(0.0, lineZ0 * tn));
    var den := Add(Real(lineZ0), J(Scale(zin, tn)));
    MulDiv(num, den);
    MulScale(den, Div(num, den), lineZ0);
  }

  /**
   * The line equation `(line_z0 + j zin t) z = line_z0 (zin + j line_z0 t)`
   * that the impedance `z` seen through the line solves.
   */
  predicate LineEquation(zin: Complex, lineZ0: real, tn: real, z: Complex)
  {
    Mul(Add(Real(lineZ0), J(Scale(zin, tn))), z) == Scale(Add(zin, Complex(0.0, lineZ0 * tn)), lineZ0)
  }

  /** A real factor moves out of a product. */
  lemma MulScale(a: Complex, b: Complex, k: real)
    ensures Mul(a, Scale(b, k)) == Scale(Mul(a, b), k)
  {
    assert a.re * (b.re * k) - a.im * (b.im * k) == (a.re * b.re - a.im * b.im) * k;
    assert a.re * (b.im * k) + a.im * (b.re * k) == (a.re * b.im + a.im * b.re) * k;
  }

  /** A line of zero electrical length (`tan(betal) = 0`) passes the input through. */
  lemma {:induction false} LineZeroLength(zin: Complex, lineZ0: real, tn: real)
    requires lineZ0 != 0.0 && tn == 0.0
    ensures NonZero(Add(Real(lineZ0), J(Scale(zin, tn)))) && LineTransform(zin, lineZ0, tn) == zin
  {
    var den := Add(Real(lineZ0), J(Scale(zin, tn)));
    assert den == Real(lineZ0);
    var num := Add(zin, Complex(0.0, lineZ0 * tn));
    assert num == zin;
    var q := DivR(zin, lineZ0);
    assert Mul(Real(lineZ0), q) == zin;
    DivUnique(zin, Real(lineZ0), q);
    assert Scale(q, lineZ0) == zin;
  }

  /** A line terminated in its own impedance shows that impedance at any length. */
  lemma {:induction false} LineMatched(lineZ0: real, tn: real)
    requires lineZ0 != 0.0
    ensures NonZero(Add(Real(lineZ0), J(Scale(Real(lineZ0), tn))))
    ensures LineTransform(Real(lineZ0), lineZ0, tn) == Real(lineZ0)
  {
    var den := Add(Real(lineZ0), J(Scale(Real(lineZ0), tn)));
    var num := Add(Real(lineZ0), Complex(0.0, lineZ0 * tn));
    assert den == num;
    assert Mul(num, ONE) == num;
    DivUnique(num, num, ONE);
  }

  /** What the element of the arm for `t` divides by is non-zero, and the values it reads exist. */
  predicate ElementDefined(m: Libm, a: RiNewArgs, t: Tag)
    requires LibmOk(m)
  {
    |a.vals| >= Arity(t) && (t != Bb ==> |a.units| >= Arity(t)) &&
    (IsLumped(t) ==> LumpedDefined(m, t, a.vals, a.units, Omega(m, a))) &&
    match t
    case Xfmr => XfmrDefined(m, a.vals, a.units)
    case Tl | Ss => 0.0 <= a.er
    case So => 0.0 <= a.er && BetaL(m, a) != 0.0
    case Custom => |a.lut| > 0
    case _ => true
  }

  /**
   * The impedance, in ohms, of a series element: the black box (halved when
   * differential), the resistor, the capacitor, the inductor, and the table
   * value at the frequency as given.
   */
  function SeriesZ(m: Libm, a: RiNewArgs, t: Tag): Complex
    requires LibmOk(m) && IsSeries(t) && ElementDefined(m, a, t)
  {
    var v := a.vals;
    match t
    case Bb => BlackBoxZ(v, a.diff)
    case Custom => TableZ(a.lut, a.freq)
    case Sr | Sc | Si => LumpedZ(m, t, v, a.units, Omega(m, a))
  }

  /**
   * The impedance, in ohms, of a shunt element: the resistor, capacitor and
   * inductor, the series RLC, RL and RC branches, and the open
   * (`-j Z tan(1 / betal)`) and shorted (`j Z tan(betal)`) stubs.
   */
  function ShuntZ(m: Libm, a: RiNewArgs, t: Tag): Complex
    requires LibmOk(m) && IsShunt(t) && ElementDefined(m, a, t)
  {
    match t
    case So => Complex(0.0, -(a.lineZ0 * m.tan(1.0 / BetaL(m, a))))
    case Ss => Complex(0.0, a.lineZ0 * m.tan(BetaL(m, a)))
    case Pr | Pc | Pi | Rlc | Rl | Rc => LumpedZ(m, t, a.vals, a.units, Omega(m, a))
  }

  /** The three transformer legs in ohms, `z1`, `z2` (shunt) and `z3`. */
  function XfmrZ(m: Libm, a: RiNewArgs): (Complex, Complex, Complex)
    requires XfmrDefined(m, a.vals, a.units)
  {
    var g := XfmrLegs(m, a.vals, a.units, a.freq);
    var w := Omega(m, a);
    (Complex(g.r1, w * g.l1Tee), Complex(0.0, w * g.lsTee), Complex(g.r2, w * g.l2Tee))
  }

  /** The denominator `line_z0 + j zin tan(betal)` of the line arm. */
  function LineDen(m: Libm, a: RiNewArgs): Complex
    requires LibmOk(m) && 0.0 <= a.er
  {
    Add(Real(a.lineZ0), J(Scale(Zin(a), m.tan(BetaL(m, a)))))
  }

  /** What the arm for `t` divides by or inverts is non-zero. */
  predicate RiNewTagDefined(m: Libm, a: RiNewArgs, t: Tag)
    requires LibmOk(m)
  {
    ElementDefined(m, a, t) &&
    (IsShunt(t) ==> ShuntDefined(Zin(a), ShuntZ(m, a, t))) &&
    (t == Xfmr ==> ShuntDefined(XfmrZ(m, a).0, XfmrZ(m, a).1)) &&
    (t == Tl ==> NonZero(LineDen(m, a)))
  }

  predicate RiNewDefined(m: Libm, a: RiNewArgs)
  {
    LibmOk(m) && a.z0 != 0.0 && (TagOf(a.kind).Ok? ==> RiNewTagDefined(m, a, TagOf(a.kind).value))
  }

  /**
   * `calc_ri_new`: for a recognised tag, the two values of its arm; any other
   * tag is an error.
   */
  function CalcRiNew(m: Libm, a: RiNewArgs): (r: Result<seq<real>>)
    requires RiNewDefined(m, a)
    ensures r.Err? <==> a.kind !in RI_TAGS
    ensures r.Err? ==> r.error == "element not recognized"
    ensures r.Ok? ==> |r.value| == 2
    ensures r.Ok? ==> r.value == RiNewValue(m, a, TagOf(a.kind).value)
  {
    match TagOf(a.kind)
    case Err(e) => Err(e)
    case Ok(t) => Ok(RiNewValue(m, a, t))
  }

  /**
   * One arm of `calc_ri_new`: the normalised impedance seen after the
   * element.  Series elements add to `zin`, shunt elements combine in
   * parallel with it, the transformer's tee sits between `zin` and its
   * secondary leg, and a line transforms `zin`.
   */
  function RiNewValue(m: Libm, a: RiNewArgs, t: Tag): (r: seq<real>)
    requires LibmOk(m) && a.z0 != 0.0 && RiNewTagDefined(m, a, t)
    ensures |r| == 2
    ensures IsSeries(t) ==> var e := SeriesZ(m, a, t); r == [a.rin + e.re / a.z0, a.xin + e.im / a.z0]
    ensures IsShunt(t) ==> Parallel(Zin(a), ShuntZ(m, a, t), a.z0, r)
    ensures t == Xfmr && Zin(a) == ZERO ==> XfmrCascades(m, a, r)
    ensures t == Tl && a.lineZ0 != 0.0 && (m.tan(BetaL(m, a)) == 0.0 || Zin(a) == Real(a.lineZ0)) ==> r == [a.rin, a.xin]
  {
    if IsSeries(t) then SeriesValue(m, a, t)
    else if IsShunt(t) then ShuntValue(m, a, t)
    else if t == Xfmr then XfmrValue(m, a)
    else LineValue(m, a)
  }

  /**
   * The series arms.  The black box and the resistor shift `(rin, xin)` by
   * the element's normalised impedance directly, the capacitor, inductor and
   * table value through `(zin + z) / z0`; all of them shift it by the same
   * amount.
   */
  function SeriesValue(m: Libm, a: RiNewArgs, t: Tag): (r: seq<real>)
    requires LibmOk(m) && a.z0 != 0.0 && IsSeries(t) && ElementDefined(m, a, t)
    ensures var e := SeriesZ(m, a, t); r == [a.rin + e.re / a.z0, a.xin + e.im / a.z0]
  {
    var e := SeriesZ(m, a, t);
    if t in {Bb, Sr} then [a.rin + e.re / a.z0, a.xin + e.im / a.z0]
    else
      SeriesShifts(Zin(a), a.rin, a.xin, a.z0, e);
      Out(Add(Zin(a), e), a.z0)
  }

  /**
   * The shunt arms, `(zin^-1 + z^-1)^-1 / z0`: scaled back to ohms, the
   * result's admittance is the sum of the input's and the element's.
   */
  function ShuntValue(m: Libm, a: RiNewArgs, t: Tag): (r: seq<real>)
    requires LibmOk(m) && a.z0 != 0.0 && IsShunt(t) && ElementDefined(m, a, t)
    requires ShuntDefined(Zin(a), ShuntZ(m, a, t))
    ensures Parallel(Zin(a), ShuntZ(m, a, t), a.z0, r)
  {
    ShuntOut(Zin(a), ShuntZ(m, a, t), a.z0)
  }

  /**
   * `r`, scaled back to ohms by `z0`, is the impedance whose admittance is
   * the sum of the admittances of `zin` and `e`.
   */
  predicate Parallel(zin: Complex, e: Complex, z0: real, r: seq<real>)
    requires ShuntDefined(zin, e)
  {
    |r| == 2 && var zout := Complex(r[0] * z0, r[1] * z0);
      NonZero(zout) && Inv(zout) == Add(Inv(zin), Inv(e))
  }

  /** `(zin^-1 + e^-1)^-1 / z0`. */
  function ShuntOut(zin: Complex, e: Complex, z0: real): (r: seq<real>)
    requires ShuntDefined(zin, e) && z0 != 0.0
    ensures Parallel(zin, e, z0, r)
  {
    var p := Shunt(zin, e);
    OutScalesBack(p, z0);
    ParallelOfShunt(zin, e, z0, Out(p, z0));
    Out(p, z0)
  }

  /** Outputs that scale back to the parallel combination describe it. */
  lemma ParallelOfShunt(zin: Complex, e: Complex, z0: real, r: seq<real>)
    requires ShuntDefined(zin, e) && |r| == 2 && Complex(r[0] * z0, r[1] * z0) == Shunt(zin, e)
    ensures Parallel(zin, e, z0, r)
  {
  }

  /** Scaling the normalised output by `z0` gives the impedance back. */
  lemma OutScalesBack(z: Complex, z0: real)
    requires z0 != 0.0
    ensures Complex(Out(z, z0)[0] * z0, Out(z, z0)[1] * z0) == z
  {
    RecipCancel(z.re, z0);
    RecipCancel(z.im, z0);
  }

  /** The legs `z1`, `z2`, `z3` as the primary, shunt and secondary legs of a tee of `transformer.rs`. */
  function XfmrTee(m: Libm, a: RiNewArgs): T.Legs
    requires XfmrDefined(m, a.vals, a.units)
  {
    T.Legs(XfmrZ(m, a).0, XfmrZ(m, a).1, XfmrZ(m, a).2)
  }

  /**
   * `r`, scaled back to ohms by `z0`, is what `z_cascade` of `transformer.rs`
   * computes for the legs `g` looking into a short.
   */
  predicate ShortCascades(g: T.Legs, z0: real, r: seq<real>)
  {
    |r| == 2 && T.TeeDefined(ZERO, g) && Complex(r[0] * z0, r[1] * z0) == T.Cascade(ZERO, g)
  }

  /** The `xfmr` arm's legs `z1`, `z2`, `z3`, cascaded into a short, give `r`. */
  predicate XfmrCascades(m: Libm, a: RiNewArgs, r: seq<real>)
    requires XfmrDefined(m, a.vals, a.units)
  {
    ShortCascades(XfmrTee(m, a), a.z0, r)
  }

  /**
   * `r`, scaled back to ohms by `z0`, is `zin + (z1^-1 + z2^-1)^-1 + z3` for
   * the legs `g`: the input in series with the parallel pair, then the
   * secondary leg.
   */
  predicate TeeSums(g: T.Legs, zin: Complex, z0: real, r: seq<real>)
  {
    |r| == 2 && ShuntDefined(g.p, g.m) && Complex(r[0] * z0, r[1] * z0) == Add(Add(zin, Shunt(g.p, g.m)), g.s)
  }

  /** Normalising the arm's sum gives back that sum in ohms. */
  lemma SumOut(g: T.Legs, zin: Complex, z0: real)
    requires z0 != 0.0 && ShuntDefined(g.p, g.m)
    ensures TeeSums(g, zin, z0, Out(Add(Add(zin, Shunt(g.p, g.m)), g.s), z0))
  {
    OutScalesBack(Add(Add(zin, Shunt(g.p, g.m)), g.s), z0);
  }

  /** Normalising the arm's sum into a short gives the tee cascade of the legs. */
  lemma ShortOut(g: T.Legs, z0: real)
    requires z0 != 0.0 && ShuntDefined(g.p, g.m)
    ensures ShortCascades(g, z0, Out(Add(Add(ZERO, Shunt(g.p, g.m)), g.s), z0))
  {
    OutScalesBack(Add(Add(ZERO, Shunt(g.p, g.m)), g.s), z0);
    ShortedTee(g.p, g.m, g.s);
  }

  /**
   * The `xfmr` arm: `(zin + (z1^-1 + z2^-1)^-1 + z3) / z0`.  Into a zero
   * input this is the tee cascade of `transformer.rs`; otherwise the arm
   * adds `zin` after the parallel pair, where the cascade adds it before.
   */
  function XfmrValue(m: Libm, a: RiNewArgs): (r: seq<real>)
    requires LibmOk(m) && a.z0 != 0.0 && XfmrDefined(m, a.vals, a.units)
    requires ShuntDefined(XfmrZ(m, a).0, XfmrZ(m, a).1)
    ensures |r| == 2
    ensures TeeSums(XfmrTee(m, a), Zin(a), a.z0, r)
    ensures Zin(a) == ZERO ==> XfmrCascades(m, a, r)
  {
    var g := XfmrTee(m, a);
    ShortOut(g, a.z0);
    SumOut(g, Zin(a), a.z0);
    Out(Add(Add(Zin(a), Shunt(g.p, g.m)), g.s), a.z0)
  }

  /** Into a short, the arm's sum is the tee cascade. */
  lemma ShortedTee(z1: Complex, z2: Complex, z3: Complex)
    requires ShuntDefined(z1, z2)
    ensures T.TeeDefined(ZERO, T.Legs(z1, z2, z3))
    ensures Add(Add(ZERO, Shunt(z1, z2)), z3) == T.Cascade(ZERO, T.Legs(z1, z2, z3))
  {
    assert Add(ZERO, z1) == z1;
    assert Add(ZERO, Shunt(z1, z2)) == Shunt(z1, z2);
  }

  /**
   * With a coupling coefficient and equal windings, the tee of the `xfmr`
   * arm is the tee `z_tee` of `transformer.rs` builds for the same values,
   * the resistances read as the raw first value or, in Q mode, from it as
   * the quality factor.
   */
  lemma {:induction false} XfmrLegsMatchTee(m: Libm, vals: seq<real>, units: seq<string>, freq: real)
    requires XfmrDefined(m, vals, units) && units[3] == "k" && Secondary(m, vals, units) == Primary(m, vals, units)
    ensures var g := XfmrLegs(m, vals, units, freq); var l1 := Primary(m, vals, units); var w := Angular(freq);
      T.TeeLegs(w, g.r1, g.r2, g.l1Tee, g.lsTee, g.l2Tee) ==
      T.TeeOf(w, l1, l1, true, vals[3] * l1, units[0] == "Q" && vals[0] != 0.0, vals[0], vals[0])
  {
    var l1 := Primary(m, vals, units);
    assert XfmrLegs(m, vals, units, freq) == Tee(units[0] == "Q", vals[0], freq, l1, l1, vals[3], vals[3] * l1);
    EqualWindingsTee(units[0] == "Q", vals[0], freq, l1, vals[3]);
  }

  /** The tee of equal windings `l1` coupled by `k` is the tee of `transformer.rs`. */
  lemma {:induction false} EqualWindingsTee(qMode: bool, v0: real, freq: real, l1: real, k: real)
    ensures var g := Tee(qMode, v0, freq, l1, l1, k, k * l1); var w := Angular(freq);
      T.TeeLegs(w, g.r1, g.r2, g.l1Tee, g.lsTee, g.l2Tee) == T.TeeOf(w, l1, l1, true, k * l1, qMode && v0 != 0.0, v0, v0)
  {
    var w := Angular(freq);
    assert (1.0 - k) * l1 == l1 - k * l1;
    if v0 != 0.0 {
      assert 2.0 * PI * freq * l1 / v0 == w * l1 / v0;
    }
  }

  /**
   * Outside coupling-coefficient mode the two tees differ: the arm takes the
   * mutual inductance out of the primary leg, while `z_tee` of
   * `transformer.rs` leaves the primary leg at the whole winding.
   */
  lemma {:induction false} XfmrLegsDifferOutsideK(m: Libm, vals: seq<real>, units: seq<string>, freq: real)
    requires XfmrDefined(m, vals, units) && units[3] != "k"
    requires Angular(freq) * Unscale(m, vals[3], units[3]) != 0.0
    ensures var g := XfmrLegs(m, vals, units, freq); var w := Angular(freq);
      T.TeeLegs(w, g.r1, g.r2, g.l1Tee, g.lsTee, g.l2Tee).p !=
      T.TeeOf(w, Primary(m, vals, units), Secondary(m, vals, units), false, Unscale(m, vals[3], units[3]), false, 0.0, g.r1).p
  {
    var l1 := Primary(m, vals, units);
    var mm := Unscale(m, vals[3], units[3]);
    var c := Coupling(false, vals[3], l1, mm);
    assert XfmrLegs(m, vals, units, freq) == Tee(units[0] == "Q", vals[0], freq, l1, Secondary(m, vals, units), c.0, c.1);
    MutualLeftInPrimary(units[0] == "Q", vals[0], freq, l1, Secondary(m, vals, units), mm);
  }

  /** With the mutual inductance `mm` as shunt leg, the tee's primary leg is `l1 - mm`. */
  lemma {:induction false} MutualLeftInPrimary(qMode: bool, v0: real, freq: real, l1: real, l2: real, mm: real)
    requires l1 != 0.0 && Angular(freq) * mm != 0.0
    ensures var g := Tee(qMode, v0, freq, l1, l2, mm / l1, mm); var w := Angular(freq);
      T.TeeLegs(w, g.r1, g.r2, g.l1Tee, g.lsTee, g.l2Tee).p != T.TeeOf(w, l1, l2, false, mm, false, 0.0, g.r1).p
  {
    var w := Angular(freq);
    RecipCancel(mm, l1);
    assert (1.0 - mm / l1) * l1 == l1 - mm;
    assert w * (l1 - mm) != w * l1;
  }

  /**
   * The `tl` arm: `zin` seen through the line.  A line of zero electrical
   * length gives back `(rin, xin)`, and so does a line terminated in its own
   * impedance, at any length.
   */
  function LineValue(m: Libm, a: RiNewArgs): (r: seq<real>)
    requires LibmOk(m) && a.z0 != 0.0 && 0.0 <= a.er && NonZero(LineDen(m, a))
    ensures |r| == 2
    ensures a.lineZ0 != 0.0 && (m.tan(BetaL(m, a)) == 0.0 || Zin(a) == Real(a.lineZ0)) ==> r == [a.rin, a.xin]
  {
    var tn := m.tan(BetaL(m, a));
    LineUnchanged(Zin(a), a.lineZ0, tn);
    OutOfInput(Zin(a), a.rin, a.xin, a.z0);
    Out(LineTransform(Zin(a), a.lineZ0, tn), a.z0)
  }

  /** The two cases in which a line leaves the impedance it sees unchanged. */
  lemma LineUnchanged(zin: Complex, lineZ0: real, tn: real)
    requires NonZero(Add(Real(lineZ0), J(Scale(zin, tn))))
    ensures lineZ0 != 0.0 && (tn == 0.0 || zin == Real(lineZ0)) ==> LineTransform(zin, lineZ0, tn) == zin
  {
    if lineZ0 != 0.0 && tn == 0.0 {
      LineZeroLength(zin, lineZ0, tn);
    } else if lineZ0 != 0.0 && zin == Real(lineZ0) {
      LineMatched(lineZ0, tn);
    }
  }

  /** Adding an element in series shifts the normalised input by the element's normalised impedance. */
  lemma {:induction false} SeriesShifts(zin: Complex, rin: real, xin: real, z0: real, e: Complex)
    requires z0 != 0.0 && zin == Complex(rin * z0, xin * z0)
    ensures Out(Add(zin, e), z0) == [rin + e.re / z0, xin + e.im / z0]
  {
    assert (rin * z0 + e.re) / z0 == rin + e.re / z0;
    assert (xin * z0 + e.im) / z0 == xin + e.im / z0;
  }

  /** Normalising `zin` gives back `(rin, xin)`. */
  lemma OutOfInput(zin: Complex, rin: real, xin: real, z0: real)
    requires z0 != 0.0 && zin == Complex(rin * z0, xin * z0)
    ensures Out(zin, z0) == [rin, xin]
  {
    assert (rin * z0) / z0 == rin && (xin * z0) / z0 == xin;
  }

  /** The `calc_ri` arguments that correspond to those of a `calc_ri_new` call. */
  function RiArgsOf(a: RiNewArgs): RiArgs
  {
    RiArgs(a.vals, a.units, a.lut, a.kind, a.freq, a.z0, a.diff)
  }

  /**
   * Into a zero input, at a frequency in hertz, a series element gives the
   * normalised impedance `calc_ri` reports for it.
   */
  lemma {:induction false} CalcRiNewAgreesWithCalcRi(m: Libm, a: RiNewArgs, t: Tag)
    requires LibmOk(m) && a.z0 != 0.0 && IsSeries(t) && RiNewTagDefined(m, a, t)
    requires a.rin == 0.0 && a.xin == 0.0 && a.freqUnit == ""
    ensures RiTagDefined(m, RiArgsOf(a), t)
    ensures RiNewValue(m, a, t) == RiValue(m, RiArgsOf(a), t)[..2]
  {
    UnscaleBase(m, a.freq);
    var e := SeriesZ(m, a, t);
    assert RiNewValue(m, a, t) == [0.0 + e.re / a.z0, 0.0 + e.im / a.z0];
    if t != Bb {
      SeriesNorm3(m, a, t);
    }
  }

  /** Away from the black box, `calc_ri` reports the series impedance normalised by `z0`. */
  lemma SeriesNorm3(m: Libm, a: RiNewArgs, t: Tag)
    requires LibmOk(m) && a.z0 != 0.0 && IsSeries(t) && t != Bb && RiNewTagDefined(m, a, t)
    requires a.freqUnit == "" && Omega(m, a) == Angular(a.freq)
    ensures RiTagDefined(m, RiArgsOf(a), t)
    ensures RiValue(m, RiArgsOf(a), t) == Norm3(SeriesZ(m, a, t), a.z0)
  {
    match t
    case Custom =>
    case Sr | Sc | Si =>
  }

  // ---------------------------------------------------------------------
  // calc_ri_custom
  // ---------------------------------------------------------------------

  /**
   * `calc_ri_custom`: the table value at the unscaled frequency, normalised by
   * `z0`.  The interpolation mode argument is not read.
   */
  method CalcRiCustom(m: Libm, lut: seq<Row>, interp: string, freq: real, freqUnit: string, z0: real)
    returns (r: Result<seq<real>>)
    requires LibmOk(m) && |lut| > 0 && z0 != 0.0
    ensures r == Ok([CustomZ(lut, Unscale(m, freq, freqUnit)).0 / z0, CustomZ(lut, Unscale(m, freq, freqUnit)).1 / z0])
  {
    var f := Unscale(m, freq, freqUnit);
    var i := CustomZIndex(lut, f);
    var re, im;
    if !(0 < i && lut[i].0 > f) {
      assert !InteriorIndex(lut, f);
      re, im := lut[i].1, lut[i].2;
    } else {
      assert InteriorIndex(lut, f);
      var f1 := lut[i - 1].0;
      var f2 := lut[i].0;
      var frac := (f - f1) / (f2 - f1);
      re := Lerp(lut[i - 1].1, lut[i].1, frac);
      im := Lerp(lut[i - 1].2, lut[i].2, frac);
    }
    r := Ok([re / z0, im / z0]);
  }

  // ---------------------------------------------------------------------
  // calc_ri_tline
  // ---------------------------------------------------------------------

  /** The arguments of `calc_ri_tline`. */
  datatype TlineArgs = TlineArgs(vals: seq<real>, units: seq<string>, lineZ0: real, kind: string,
                                 freq: real, freqUnit: string, z0: real, er: real)

  /** `betal = 2 pi unscale(freq) sqrt(er) unscale(len)`. */
  function TlineBetaL(m: Libm, a: TlineArgs): real
    requires LibmOk(m) && 0.0 <= a.er && |a.vals| >= 1 && |a.units| >= 1
  {
    Angular(Unscale(m, a.freq, a.freqUnit)) * Sqrt(m, a.er) * Unscale(m, a.vals[0], a.units[0])
  }

  predicate TlineDefined(m: Libm, a: TlineArgs)
  {
    LibmOk(m) && a.z0 != 0.0 && 0.0 <= a.er && |a.vals| >= 1 && |a.units| >= 1 &&
    (a.kind == "tl" ==> NonZero(Add(Real(a.lineZ0), J(Scale(Real(50.0), m.tan(TlineBetaL(m, a))))))) &&
    (a.kind == "so" ==> TlineBetaL(m, a) != 0.0)
  }

  /**
   * `calc_ri_tline`: a line terminated in a fixed 50-ohm load, or a stub's
   * own reactance, normalised by `z0`.  Any other tag is an error.
   */
  function CalcRiTline(m: Libm, a: TlineArgs): (r: Result<seq<real>>)
    requires TlineDefined(m, a)
    ensures r.Err? <==> a.kind !in {"tl", "so", "ss"}
    ensures r.Err? ==> r.error == "element not recognized"
    ensures r.Ok? ==> |r.value| == 2
    ensures a.kind in {"so", "ss"} ==> r.value[0] == 0.0
    ensures a.kind == "tl" ==> LineEquation(Real(50.0), a.lineZ0, m.tan(TlineBetaL(m, a)), Scaled(r.value, a.z0))
    ensures a.kind == "ss" ==> Scaled(r.value, a.z0) == Complex(0.0, a.lineZ0 * m.tan(TlineBetaL(m, a)))
    ensures a.kind == "so" ==> Scaled(r.value, a.z0) == Complex(0.0, -(a.lineZ0 * m.tan(1.0 / TlineBetaL(m, a))))
  {
    var betal := TlineBetaL(m, a);
    match a.kind
    case "tl" => LoadedLineOut(a.lineZ0, m.tan(betal), a.z0)
    case "so" => ReactanceOut(-(a.lineZ0 * m.tan(1.0 / betal)), a.z0)
    case "ss" => ReactanceOut(a.lineZ0 * m.tan(betal), a.z0)
    case _ => Err("element not recognized")
  }

  /** The `tl` arm: the fixed 50-ohm load seen through the line, normalised by `z0`. */
  function LoadedLineOut(lineZ0: real, tn: real, z0: real): (r: Result<seq<real>>)
    requires z0 != 0.0 && NonZero(Add(Real(lineZ0), J(Scale(Real(50.0), tn))))
    ensures r.Ok? && |r.value| == 2 && LineEquation(Real(50.0), lineZ0, tn, Scaled(r.value, z0))
  {
    var zt := LineTransform(Real(50.0), lineZ0, tn);
    LineTransformSolves(Real(50.0), lineZ0, tn);
    OutScalesBack(zt, z0);
    Ok(Out(zt, z0))
  }

  /** The stub arms: a pure reactance `x`, normalised by `z0`. */
  function ReactanceOut(x: real, z0: real): (r: Result<seq<real>>)
    requires z0 != 0.0
    ensures r.Ok? && |r.value| == 2 && r.value[0] == 0.0 && Scaled(r.value, z0) == Complex(0.0, x)
  {
    OutScalesBack(Complex(0.0, x), z0);
    Ok(Out(Complex(0.0, x), z0))
  }

  /**
   * The `so` arm reads `tan(1 / betal)`.  The open stub of `openstub.rs` has
   * the reactance `-line_z0 / tan(betal)`; the arm reports that reactance
   * exactly when `tan(1 / betal) tan(betal) = 1`.
   */
  lemma {:induction false} OpenArmCotangent(m: Libm, a: TlineArgs)
    requires TlineDefined(m, a) && a.kind == "so" && a.lineZ0 != 0.0 && m.tan(TlineBetaL(m, a)) != 0.0
    ensures Scaled(CalcRiTline(m, a).value, a.z0) == Complex(0.0, -(a.lineZ0 / m.tan(TlineBetaL(m, a)))) <==>
            m.tan(1.0 / TlineBetaL(m, a)) * m.tan(TlineBetaL(m, a)) == 1.0
  {
    var t := m.tan(TlineBetaL(m, a));
    var ti := m.tan(1.0 / TlineBetaL(m, a));
    CotangentIff(a.lineZ0, t, ti);
  }

  /** `z0 ti = z0 / t` exactly when `ti t = 1`, for non-zero `z0` and `t`. */
  lemma CotangentIff(z0: real, t: real, ti: real)
    requires z0 != 0.0 && t != 0.0
    ensures -(z0 * ti) == -(z0 / t) <==> ti * t == 1.0
  {
    if ti * t == 1.0 {
      assert ti == 1.0 / t;
      assert z0 * ti == z0 / t;
    }
    if -(z0 * ti) == -(z0 / t) {
      assert z0 * ti * t == z0;
      assert z0 * (ti * t) == z0 * 1.0;
    }
  }

  /**
   * The line's load is a fixed 50 ohms: at zero electrical length, and for a
   * 50-ohm line at any length, it reports that load.
   */
  lemma {:induction false} CalcRiTlineFixedLoad(m: Libm, a: TlineArgs)
    requires TlineDefined(m, a) && a.kind == "tl" && a.lineZ0 != 0.0
    requires m.tan(TlineBetaL(m, a)) == 0.0 || a.lineZ0 == 50.0
    ensures CalcRiTline(m, a).value == [50.0 / a.z0, 0.0]
  {
    var tn := m.tan(TlineBetaL(m, a));
    FixedLoad(a.lineZ0, tn);
    OutReal(50.0, a.z0);
    assert CalcRiTline(m, a) == Ok(Out(LineTransform(Real(50.0), a.lineZ0, tn), a.z0));
  }

  lemma OutReal(x: real, z0: real)
    requires z0 != 0.0
    ensures Out(Real(x), z0) == [x / z0, 0.0]
  {
    assert 0.0 / z0 == 0.0;
  }

  lemma FixedLoad(lineZ0: real, tn: real)
    requires lineZ0 != 0.0 && (tn == 0.0 || lineZ0 == 50.0)
    ensures NonZero(Add(Real(lineZ0), J(Scale(Real(50.0), tn))))
    ensures LineTransform(Real(50.0), lineZ0, tn) == Real(50.0)
  {
    if lineZ0 == 50.0 {
      LineMatched(50.0, tn);
    } else {
      LineZeroLength(Real(50.0), lineZ0, tn);
    }
  }
}
