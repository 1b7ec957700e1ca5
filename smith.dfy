/**
 * The Smith-chart back end of `smith.rs`: the element tag parser, the map
 * from a normalised impedance to a chart point, and the discretisation of an
 * element's arc into chart points.
 */
module Smith {
  import opened Wrappers
  import opened Numeric
  import R = RfUtils

  /** The schematic element tags. */
  datatype Element =
    | SeriesCapacitor | ShuntCapacitor | SeriesInductor | ShuntInductor
    | SeriesResistor | ShuntResistor | TransmissionLine | OpenStub
    | ShortedStub | Transformer | ResistorInductorCapacitor | CustomZ

  /** The aliases `Element::from_str` accepts for each tag. */
  const SERIES_CAPACITOR_NAMES: set<string> := {"sc", "ser_cap", "series_cap", "series_capacitor"}
  const SHUNT_CAPACITOR_NAMES: set<string> := {"pc", "shnt_cap", "shunt_cap", "shunt_capacitor"}
  const SERIES_INDUCTOR_NAMES: set<string> := {"si", "ser_ind", "series_ind", "series_inductor"}
  const SHUNT_INDUCTOR_NAMES: set<string> := {"pi", "shnt_ind", "shunt_ind", "shunt_inductor"}
  const SERIES_RESISTOR_NAMES: set<string> := {"sr", "ser_res", "series_res", "series_resistor"}
  const SHUNT_RESISTOR_NAMES: set<string> := {"pr", "shnt_res", "shunt_res", "shunt_resistor"}
  const TLINE_NAMES: set<string> := {"tl", "tline", "transmission_line"}
  const OPEN_STUB_NAMES: set<string> := {"os", "open_stub"}
  const SHORTED_STUB_NAMES: set<string> := {"ss", "short_stub", "shorted_stub"}
  const TRANSFORMER_NAMES: set<string> := {"xfmr", "transformer"}
  const RLC_NAMES: set<string> := {"rlc", "res_ind_cap", "resistor_inductor_capacitor"}
  const CUSTOM_Z_NAMES: set<string> := {"custom_z", "customZ"}

  /** The aliases of a tag. */
  function ElementNames(e: Element): set<string>
  {
    match e
    case SeriesCapacitor => SERIES_CAPACITOR_NAMES
    case ShuntCapacitor => SHUNT_CAPACITOR_NAMES
    case SeriesInductor => SERIES_INDUCTOR_NAMES
    case ShuntInductor => SHUNT_INDUCTOR_NAMES
    case SeriesResistor => SERIES_RESISTOR_NAMES
    case ShuntResistor => SHUNT_RESISTOR_NAMES
    case TransmissionLine => TLINE_NAMES
    case OpenStub => OPEN_STUB_NAMES
    case ShortedStub => SHORTED_STUB_NAMES
    case Transformer => TRANSFORMER_NAMES
    case ResistorInductorCapacitor => RLC_NAMES
    case CustomZ => CUSTOM_Z_NAMES
  }

  /** No capacitor or inductor alias is listed for an earlier tag. */
  lemma CapInductorNamesDistinct(s: string)
    ensures s in SHUNT_CAPACITOR_NAMES ==> s !in SERIES_CAPACITOR_NAMES
    ensures s in SERIES_INDUCTOR_NAMES ==> s !in SERIES_CAPACITOR_NAMES
    ensures s in SERIES_INDUCTOR_NAMES ==> s !in SHUNT_CAPACITOR_NAMES
    ensures s in SHUNT_INDUCTOR_NAMES ==> s !in SERIES_CAPACITOR_NAMES
    ensures s in SHUNT_INDUCTOR_NAMES ==> s !in SHUNT_CAPACITOR_NAMES
    ensures s in SHUNT_INDUCTOR_NAMES ==> s !in SERIES_INDUCTOR_NAMES
  {
  }

  /** No resistor or line alias is listed for an earlier tag. */
  lemma ResistorLineNamesDistinct(s: string)
    ensures s in SERIES_RESISTOR_NAMES ==> s !in SERIES_CAPACITOR_NAMES
    ensures s in SERIES_RESISTOR_NAMES ==> s !in SHUNT_CAPACITOR_NAMES
    ensures s in SERIES_RESISTOR_NAMES ==> s !in SERIES_INDUCTOR_NAMES
    ensures s in SERIES_RESISTOR_NAMES ==> s !in SHUNT_INDUCTOR_NAMES
    ensures s in SHUNT_RESISTOR_NAMES ==> s !in SERIES_CAPACITOR_NAMES
    ensures s in SHUNT_RESISTOR_NAMES ==> s !in SHUNT_CAPACITOR_NAMES
    ensures s in SHUNT_RESISTOR_NAMES ==> s !in SERIES_INDUCTOR_NAMES
    ensures s in SHUNT_RESISTOR_NAMES ==> s !in SHUNT_INDUCTOR_NAMES
    ensures s in SHUNT_RESISTOR_NAMES ==> s !in SERIES_RESISTOR_NAMES
    ensures s in TLINE_NAMES ==> s !in SERIES_CAPACITOR_NAMES
    ensures s in TLINE_NAMES ==> s !in SHUNT_CAPACITOR_NAMES
    ensures s in TLINE_NAMES ==> s !in SERIES_INDUCTOR_NAMES
    ensures s in TLINE_NAMES ==> s !in SHUNT_INDUCTOR_NAMES
    ensures s in TLINE_NAMES ==> s !in SERIES_RESISTOR_NAMES
    ensures s in TLINE_NAMES ==> s !in SHUNT_RESISTOR_NAMES
  {
  }

  /** No stub or transformer alias is listed for an earlier tag. */
  lemma StubTransformerNamesDistinct(s: string)
    ensures s in OPEN_STUB_NAMES ==> s !in SERIES_CAPACITOR_NAMES
    ensures s in OPEN_STUB_NAMES ==> s !in SHUNT_CAPACITOR_NAMES
    ensures s in OPEN_STUB_NAMES ==> s !in SERIES_INDUCTOR_NAMES
    ensures s in OPEN_STUB_NAMES ==> s !in SHUNT_INDUCTOR_NAMES
    ensures s in OPEN_STUB_NAMES ==> s !in SERIES_RESISTOR_NAMES
    ensures s in OPEN_STUB_NAMES ==> s !in SHUNT_RESISTOR_NAMES
    ensures s in OPEN_STUB_NAMES ==> s !in TLINE_NAMES
    ensures s in SHORTED_STUB_NAMES ==> s !in SERIES_CAPACITOR_NAMES
    ensures s in SHORTED_STUB_NAMES ==> s !in SHUNT_CAPACITOR_NAMES
    ensures s in SHORTED_STUB_NAMES ==> s !in SERIES_INDUCTOR_NAMES
    ensures s in SHORTED_STUB_NAMES ==> s !in SHUNT_INDUCTOR_NAMES
    ensures s in SHORTED_STUB_NAMES ==> s !in SERIES_RESISTOR_NAMES
    ensures s in SHORTED_STUB_NAMES ==> s !in SHUNT_RESISTOR_NAMES
    ensures s in SHORTED_STUB_NAMES ==> s !in TLINE_NAMES
    ensures s in SHORTED_STUB_NAMES ==> s !in OPEN_STUB_NAMES
    ensures s in TRANSFORMER_NAMES ==> s !in SERIES_CAPACITOR_NAMES
    ensures s in TRANSFORMER_NAMES ==> s !in SHUNT_CAPACITOR_NAMES
    ensures s in TRANSFORMER_NAMES ==> s !in SERIES_INDUCTOR_NAMES
    ensures s in TRANSFORMER_NAMES ==> s !in SHUNT_INDUCTOR_NAMES
    ensures s in TRANSFORMER_NAMES ==> s !in SERIES_RESISTOR_NAMES
    ensures s in TRANSFORMER_NAMES ==> s !in SHUNT_RESISTOR_NAMES
    ensures s in TRANSFORMER_NAMES ==> s !in TLINE_NAMES
    ensures s in TRANSFORMER_NAMES ==> s !in OPEN_STUB_NAMES
    ensures s in TRANSFORMER_NAMES ==> s !in SHORTED_STUB_NAMES
  {
  }

  /** No RLC or custom alias is listed for an earlier tag. */
  lemma LumpedCustomNamesDistinct(s: string)
    ensures s in RLC_NAMES ==> s !in SERIES_CAPACITOR_NAMES
    ensures s in RLC_NAMES ==> s !in SHUNT_CAPACITOR_NAMES
    ensures s in RLC_NAMES ==> s !in SERIES_INDUCTOR_NAMES
    ensures s in RLC_NAMES ==> s !in SHUNT_INDUCTOR_NAMES
    ensures s in RLC_NAMES ==> s !in SERIES_RESISTOR_NAMES
    ensures s in RLC_NAMES ==> s !in SHUNT_RESISTOR_NAMES
    ensures s in RLC_NAMES ==> s !in TLINE_NAMES
    ensures s in RLC_NAMES ==> s !in OPEN_STUB_NAMES
    ensures s in RLC_NAMES ==> s !in SHORTED_STUB_NAMES
    ensures s in RLC_NAMES ==> s !in TRANSFORMER_NAMES
    ensures s in CUSTOM_Z_NAMES ==> s !in SERIES_CAPACITOR_NAMES
    ensures s in CUSTOM_Z_NAMES ==> s !in SHUNT_CAPACITOR_NAMES
    ensures s in CUSTOM_Z_NAMES ==> s !in SERIES_INDUCTOR_NAMES
    ensures s in CUSTOM_Z_NAMES ==> s !in SHUNT_INDUCTOR_NAMES
    ensures s in CUSTOM_Z_NAMES ==> s !in SERIES_RESISTOR_NAMES
    ensures s in CUSTOM_Z_NAMES ==> s !in SHUNT_RESISTOR_NAMES
    ensures s in CUSTOM_Z_NAMES ==> s !in TLINE_NAMES
    ensures s in CUSTOM_Z_NAMES ==> s !in OPEN_STUB_NAMES
    ensures s in CUSTOM_Z_NAMES ==> s !in SHORTED_STUB_NAMES
    ensures s in CUSTOM_Z_NAMES ==> s !in TRANSFORMER_NAMES
    ensures s in CUSTOM_Z_NAMES ==> s !in RLC_NAMES
  {
  }

  /** `Element::from_str`: each alias list gives its own tag, and every other string is the error. */
  function ElementFromStr(s: string): (r: Result<Element>)
    ensures forall e :: r == Ok(e) <==> s in ElementNames(e)
    ensures r.Err? <==> forall e :: s !in ElementNames(e)
    ensures r.Err? ==> r.error == "Element not recognize"
  {
    CapInductorNamesDistinct(s);
    ResistorLineNamesDistinct(s);
    StubTransformerNamesDistinct(s);
    LumpedCustomNamesDistinct(s);
    if s in SERIES_CAPACITOR_NAMES then Ok(SeriesCapacitor)
    else if s in SHUNT_CAPACITOR_NAMES then Ok(ShuntCapacitor)
    else if s in SERIES_INDUCTOR_NAMES then Ok(SeriesInductor)
    else if s in SHUNT_INDUCTOR_NAMES then Ok(ShuntInductor)
    else if s in SERIES_RESISTOR_NAMES then Ok(SeriesResistor)
    else if s in SHUNT_RESISTOR_NAMES then Ok(ShuntResistor)
    else if s in TLINE_NAMES then Ok(TransmissionLine)
    else if s in OPEN_STUB_NAMES then Ok(OpenStub)
    else if s in SHORTED_STUB_NAMES then Ok(ShortedStub)
    else if s in TRANSFORMER_NAMES then Ok(Transformer)
    else if s in RLC_NAMES then Ok(ResistorInductorCapacitor)
    else if s in CUSTOM_Z_NAMES then Ok(CustomZ)
    else Err("Element not recognize")
  }

  /** `Element::to_string`: the long snake-case name. */
  function ElementToString(e: Element): (r: string)
    ensures |r| >= 3
  {
    match e
    case SeriesCapacitor => "series_capacitor"
    case ShuntCapacitor => "shunt_capacitor"
    case SeriesInductor => "series_inductor"
    case ShuntInductor => "shunt_inductor"
    case SeriesResistor => "series_resistor"
    case ShuntResistor => "shunt_resistor"
    case TransmissionLine => "transmission_line"
    case OpenStub => "open_stub"
    case ShortedStub => "shorted_stub"
    case Transformer => "transformer"
    case ResistorInductorCapacitor => "rlc"
    case CustomZ => "custom_z"
  }

  /** Printing then parsing gives back every variant. */
  lemma ElementRoundTrip(e: Element)
    ensures ElementFromStr(ElementToString(e)) == Ok(e)
  {
  }

  /** Printing is injective, so distinct tags never share a name. */
  lemma {:induction false} ElementToStringInjective(a: Element, b: Element)
    requires ElementToString(a) == ElementToString(b)
    ensures a == b
  {
    ElementRoundTrip(a);
    ElementRoundTrip(b);
  }

  /** Strings that are not aliases are rejected. */
  lemma ElementUnknown()
    ensures ElementFromStr("").Err? && ElementFromStr("cap").Err? && ElementFromStr("SC").Err?
  {
  }

  /** Near-miss spellings of element names are rejected too. */
  lemma ElementNearMissUnknown()
    ensures ElementFromStr("custom_Z").Err? && ElementFromStr("open").Err?
  {
  }

  /** The impedance the chart plots: itself, or its reciprocal on the admittance chart. */
  function Rotated(z: Complex, rotate: bool): Complex
    requires rotate ==> NonZero(z)
  {
    if rotate then Inv(z) else z
  }

  /** The chart map is finite: no zero to invert, and the plotted impedance is not -1. */
  predicate ChartDefined(z: Complex, rotate: bool)
  {
    (rotate ==> NonZero(z)) && NonZero(Add(Rotated(z, rotate), ONE))
  }

  /** The chart point `(w - 1) / (w + 1)` of the plotted impedance `w`. */
  function Chart(z: Complex, rotate: bool): (g: Complex)
    requires ChartDefined(z, rotate)
    ensures Mul(Add(Rotated(z, rotate), ONE), g) == Sub(Rotated(z, rotate), ONE)
  {
    var w := Rotated(z, rotate);
    MulDiv(Sub(w, ONE), Add(w, ONE));
    Div(Sub(w, ONE), Add(w, ONE))
  }

  /** No impedance maps to the open-circuit point 1 of the chart. */
  lemma {:induction false} ChartNeverOne(z: Complex, rotate: bool)
    requires ChartDefined(z, rotate)
    ensures Chart(z, rotate) != ONE
  {
    if Chart(z, rotate) == ONE {
      assert false;
    }
  }

  /** On the admittance chart a point is the reflection through the centre of the impedance chart. */
  lemma {:induction false} ChartRotate(z: Complex)
    requires ChartDefined(z, true) && ChartDefined(z, false)
    ensures Chart(z, true) == Neg(Chart(z, false))
  {
    var y := Inv(z);
    var g := Chart(z, false);
    assert Mul(Add(z, ONE), g) == Sub(z, ONE);
    assert Mul(z, y) == ONE;
    // (y + 1)(-g) == y - 1: multiply both sides by z.
    var lhs := Mul(Add(y, ONE), Neg(g));
    var rhs := Sub(y, ONE);
    assert Mul(z, lhs) == Mul(z, rhs) by {
      MulAssoc(z, Add(y, ONE), Neg(g));
      assert Mul(z, Add(y, ONE)) == Add(z, ONE);
      assert Mul(Add(z, ONE), Neg(g)) == Neg(Sub(z, ONE));
      assert Mul(z, rhs) == Sub(ONE, z);
    }
    MulCancel(z, lhs, rhs);
    DivUnique(rhs, Add(y, ONE), Neg(g));
  }

  /** A non-zero factor cancels. */
  lemma {:induction false} MulCancel(z: Complex, a: Complex, b: Complex)
    requires NonZero(z) && Mul(z, a) == Mul(z, b)
    ensures a == b
  {
    DivUnique(Mul(z, a), z, a);
    DivUnique(Mul(z, b), z, b);
  }

  /** `im.is_finite()` failing makes the imaginary part 0. */
  function FiniteIm(im: Value): real
  {
    if im.Num? then im.v else 0.0
  }

  /**
   * `find_smith_coord(re, im, rotate)`: the chart point of `re + j im`, on
   * the admittance chart when `rotate` holds.  It never reports an error.
   */
  function FindSmithCoord(re: real, im: Value, rotate: bool): (r: Result<seq<real>>)
    requires ChartDefined(Complex(re, FiniteIm(im)), rotate)
    ensures r.Ok? && |r.value| == 2
    ensures var w := Rotated(Complex(re, FiniteIm(im)), rotate);
      Mul(Add(w, ONE), Complex(r.value[0], r.value[1])) == Sub(w, ONE)
    ensures !im.IsFinite() ==> r.value == [Chart(Complex(re, 0.0), rotate).re, Chart(Complex(re, 0.0), rotate).im]
    ensures r.value[0] != 1.0 || r.value[1] != 0.0
  {
    var g := Chart(Complex(re, FiniteIm(im)), rotate);
    ChartNeverOne(Complex(re, FiniteIm(im)), rotate);
    Ok([g.re, g.im])
  }

  /** `y + s` on `f64`, where `s` may be infinite. */
  function AddValue(y: real, s: Value): (r: Value)
    ensures r.IsFinite() <==> s.IsFinite()
  {
    match s
    case Num(v) => Num(y + v)
    case NaN => NaN
    case PosInf => PosInf
    case NegInf => NegInf
  }

  /** The arguments of `arc_smith_points`. */
  datatype ArcParams = ArcParams(x1: real, y1: real, x2: real, y2: real, kind: string, rotate: bool,
                                 beta: real, startAtQtrWl: real, z0: real, resolution: nat)

  /** The record `arc_smith_points` returns. */
  datatype ArcReturn = ArcReturn(xCoord: seq<real>, yCoord: seq<real>, endX: real, endY: real,
                                 realOld: real, imagOld: Value, startX: real, startY: real,
                                 x1: real, y1: real, x2: real, y2: real)

  predicate IsLine(p: ArcParams) { p.kind == "transmission_line" }
  predicate IsStub(p: ArcParams) { p.kind == "ss" || p.kind == "so" }

  predicate StartDefined(p: ArcParams)
  {
    p.z0 != 0.0 && p.resolution > 0 && ChartDefined(Complex(p.x1, p.y1), p.rotate)
  }

  /** The chart point of `(x1, y1)`, reported as the arc's start. */
  function Start(p: ArcParams): Complex
    requires StartDefined(p)
  {
    Chart(Complex(p.x1, p.y1), p.rotate)
  }

  /** `zl`: the load impedance behind the start point, `calc_z(start, z0)`. */
  function Load(p: ArcParams): Complex
    requires StartDefined(p)
  {
    ChartNeverOne(Complex(p.x1, p.y1), p.rotate);
    R.CalcZ(Start(p), p.z0)
  }

  /** The electrical length at sample `i` of a line or open stub. */
  function LineBetal(p: ArcParams, i: nat): real
    requires p.resolution > 0
  {
    (p.beta * (i as real) * p.x2) / (p.resolution as real)
  }

  /** The denominator of the line formula at sample `i`. */
  function LineDen(m: Libm, p: ArcParams, i: nat): Complex
    requires StartDefined(p)
  {
    Add(Real(p.y2), J(Scale(Load(p), m.tan(LineBetal(p, i)))))
  }

  /** Sample `i` of a transmission line: its input impedance normalised by `z0`. */
  function LineZi(m: Libm, p: ArcParams, i: nat): Complex
    requires StartDefined(p) && NonZero(LineDen(m, p, i))
  {
    var t := m.tan(LineBetal(p, i));
    var num := Add(Load(p), Complex(0.0, p.y2 * t));
    DivR(Scale(Div(num, LineDen(m, p, i)), p.y2), p.z0)
  }

  /** The tangent argument of a shorted stub at sample `i`. */
  function StubArg(p: ArcParams, i: nat): real
    requires p.resolution > 0
  {
    if p.startAtQtrWl == 0.0 then (p.beta * (i as real) * p.x2) / (p.resolution as real)
    else p.beta * (p.startAtQtrWl + ((i as real) * (p.x2 - p.startAtQtrWl)) / (p.resolution as real))
  }

  predicate StubDefined(p: ArcParams)
  {
    p.z0 != 0.0 && p.resolution > 0 && (p.kind != "ss" ==> p.y2 != 0.0)
  }

  /**
   * `stub_admittance_im` at sample `i`.  A shorted stub whose tangent is 0
   * divides -1 by zero, and the result is an infinity.
   */
  function StubAdmittance(m: Libm, p: ArcParams, i: nat): Value
    requires StubDefined(p)
  {
    if p.kind == "ss" then
      var d := (m.tan(StubArg(p, i)) * p.y2) / p.z0;
      if d == 0.0 then NegInf else Num(-1.0 / d)
    else
      Num(m.tan(LineBetal(p, i)) / (p.y2 / p.z0))
  }

  /** The point an ordinary element's sweep reaches at sample `i`. */
  function Interpolated(p: ArcParams, i: nat): Complex
    requires p.resolution > 0
  {
    Complex(p.x1 + ((p.x2 - p.x1) * (i as real)) / (p.resolution as real),
            p.y1 + ((p.y2 - p.y1) * (i as real)) / (p.resolution as real))
  }

  /** Everything sample `i` divides by is non-zero. */
  predicate SampleDefined(m: Libm, p: ArcParams, i: nat)
  {
    StartDefined(p) &&
    if IsLine(p) then NonZero(LineDen(m, p, i)) && ChartDefined(LineZi(m, p, i), p.rotate)
    else if IsStub(p) then
      StubDefined(p) && ChartDefined(Complex(p.x1, FiniteIm(AddValue(p.y1, StubAdmittance(m, p, i)))), p.rotate)
    else ChartDefined(Interpolated(p, i), p.rotate)
  }

  /** The chart point of sample `i`. */
  function Sample(m: Libm, p: ArcParams, i: nat): Complex
    requires SampleDefined(m, p, i)
  {
    if IsLine(p) then Chart(LineZi(m, p, i), p.rotate)
    else if IsStub(p) then Chart(Complex(p.x1, FiniteIm(AddValue(p.y1, StubAdmittance(m, p, i)))), p.rotate)
    else Chart(Interpolated(p, i), p.rotate)
  }

  predicate ArcDefined(m: Libm, p: ArcParams)
  {
    StartDefined(p) && forall i: nat :: i <= p.resolution ==> SampleDefined(m, p, i)
  }

  /**
   * `arc_smith_points`: fills `resolution + 1` chart points, echoes the
   * inputs, reports the last point as the end, and reports the last line
   * impedance or stub point as `real_old` / `imag_old`.
   */
  method ArcSmithPoints(m: Libm, p: ArcParams) returns (r: ArcReturn)
    requires ArcDefined(m, p)
    ensures |r.xCoord| == p.resolution + 1 && |r.yCoord| == p.resolution + 1
    ensures forall i :: 0 <= i <= p.resolution ==> r.xCoord[i] == Sample(m, p, i).re && r.yCoord[i] == Sample(m, p, i).im
    ensures r.endX == r.xCoord[p.resolution] && r.endY == r.yCoord[p.resolution]
    ensures r.startX == Start(p).re && r.startY == Start(p).im
    ensures r.x1 == p.x1 && r.y1 == p.y1 && r.x2 == p.x2 && r.y2 == p.y2
    ensures IsLine(p) ==> SampleDefined(m, p, p.resolution) && r.realOld == LineZi(m, p, p.resolution).re && r.imagOld == Num(LineZi(m, p, p.resolution).im)
    ensures !IsLine(p) && IsStub(p) ==> StubDefined(p) && r.realOld == p.x1 && r.imagOld == AddValue(p.y1, StubAdmittance(m, p, p.resolution))
    ensures !IsLine(p) && !IsStub(p) ==> r.realOld == 0.0 && r.imagOld == Num(0.0)
  {
    var n := p.resolution;
    var xCoord := seq(n + 1, _ => 0.0);
    var yCoord := seq(n + 1, _ => 0.0);
    var temp := FindSmithCoord(p.x1, Num(p.y1), p.rotate).value;
    var startX, startY := temp[0], temp[1];
    var realOld, imagOld := 0.0, Num(0.0);
    var stubAdmittance := Num(0.0);
    var realAnswer, imagAnswer := 0.0, 0.0;
    for i := 0 to n + 1
      invariant |xCoord| == n + 1 && |yCoord| == n + 1
      invariant forall j :: 0 <= j < i ==> xCoord[j] == Sample(m, p, j).re && yCoord[j] == Sample(m, p, j).im
      invariant i > 0 ==> SampleDefined(m, p, i - 1) && temp == Point(m, p, i - 1)
      invariant i > 0 && IsLine(p) ==> realAnswer == LineZi(m, p, i - 1).re && imagAnswer == LineZi(m, p, i - 1).im
      invariant i > 0 && !IsLine(p) && IsStub(p) ==> stubAdmittance == StubAdmittance(m, p, i - 1)
    {
      assert SampleDefined(m, p, i);
      var zi, adm;
      temp, zi, adm := ArcStep(m, p, i);
      if IsLine(p) {
        realAnswer, imagAnswer := zi.re, zi.im;
      } else if IsStub(p) {
        stubAdmittance := adm;
      }
      xCoord := xCoord[i := temp[0]];
      yCoord := yCoord[i := temp[1]];
    }
    if IsLine(p) {
      SampleCoordinates(m, p, n);
      temp := FindSmithCoord(realAnswer, Num(imagAnswer), p.rotate).value;
      realOld, imagOld := realAnswer, Num(imagAnswer);
    } else if IsStub(p) {
      realOld, imagOld := p.x1, AddValue(p.y1, stubAdmittance);
    }
    r := ArcReturn(xCoord, yCoord, temp[0], temp[1], realOld, imagOld, startX, startY, p.x1, p.y1, p.x2, p.y2);
  }

  /**
   * One pass of the loop of `arc_smith_points`: a line's input impedance,
   * a stub's admittance or the interpolated point, then its chart point.
   */
  method ArcStep(m: Libm, p: ArcParams, i: nat) returns (temp: seq<real>, zi: Complex, adm: Value)
    requires SampleDefined(m, p, i)
    ensures temp == Point(m, p, i)
    ensures IsLine(p) ==> zi == LineZi(m, p, i)
    ensures !IsLine(p) && IsStub(p) ==> adm == StubAdmittance(m, p, i)
  {
    SampleCoordinates(m, p, i);
    zi, adm := ZERO, Num(0.0);
    if IsLine(p) {
      zi := LineZi(m, p, i);
      temp := FindSmithCoord(zi.re, Num(zi.im), p.rotate).value;
    } else if IsStub(p) {
      adm := StubAdmittance(m, p, i);
      temp := FindSmithCoord(p.x1, AddValue(p.y1, adm), p.rotate).value;
    } else {
      var pt := Interpolated(p, i);
      temp := FindSmithCoord(pt.re, Num(pt.im), p.rotate).value;
    }
  }

  /** Sample `i` as the two-element coordinate vector the loop writes. */
  function Point(m: Libm, p: ArcParams, i: nat): seq<real>
    requires SampleDefined(m, p, i)
  {
    [Sample(m, p, i).re, Sample(m, p, i).im]
  }

  /** What the loop body of `arc_smith_points` computes at sample `i` is `Sample(i)`. */
  lemma {:induction false} SampleCoordinates(m: Libm, p: ArcParams, i: nat)
    requires SampleDefined(m, p, i)
    ensures IsLine(p) ==>
      FindSmithCoord(LineZi(m, p, i).re, Num(LineZi(m, p, i).im), p.rotate).value == Point(m, p, i)
    ensures !IsLine(p) && IsStub(p) ==>
      FindSmithCoord(p.x1, AddValue(p.y1, StubAdmittance(m, p, i)), p.rotate).value == Point(m, p, i)
    ensures !IsLine(p) && !IsStub(p) ==>
      FindSmithCoord(Interpolated(p, i).re, Num(Interpolated(p, i).im), p.rotate).value == Point(m, p, i)
  {
  }

  /** An ordinary element's sweep starts at the chart point of `(x1, y1)`. */
  lemma ArcFirstSample(m: Libm, p: ArcParams)
    requires ArcDefined(m, p) && !IsLine(p) && !IsStub(p)
    ensures Sample(m, p, 0) == Start(p)
  {
    assert SampleDefined(m, p, 0);
    assert Interpolated(p, 0) == Complex(p.x1, p.y1);
  }

  /** An ordinary element's sweep ends at the chart point of `(x2, y2)`. */
  lemma {:induction false} ArcLastSample(m: Libm, p: ArcParams)
    requires ArcDefined(m, p) && !IsLine(p) && !IsStub(p)
    ensures ChartDefined(Complex(p.x2, p.y2), p.rotate)
    ensures Sample(m, p, p.resolution) == Chart(Complex(p.x2, p.y2), p.rotate)
  {
    assert SampleDefined(m, p, p.resolution);
    var n := p.resolution as real;
    SweepEnd(p.x1, p.x2, n);
    SweepEnd(p.y1, p.y2, n);
    assert Interpolated(p, p.resolution) == Complex(p.x2, p.y2);
  }

  lemma SweepEnd(a: real, b: real, n: real)
    requires n != 0.0
    ensures a + ((b - a) * n) / n == b
  {
  }
}
