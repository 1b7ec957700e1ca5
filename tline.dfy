/**
 * `element/tline.rs`: a transmission line of characteristic impedance `z0`,
 * relative permittivity `er` and length `length`, terminated in the load
 * `zl`, in series.  Its sweep ignores the input impedance and plots the
 * impedance seen through growing lengths of line, from nothing to all of it.
 */
module TLines {
  import opened Numeric
  import opened Units
  import opened Frequencies
  import opened Elements
  import opened Lines
  import S = Smith
  import SR = SmithRi

  /** All fields of a line, for stating what a setter leaves alone. */
  datatype TLineFields = TLineFields(z0: real, zl: Complex, er: real, length: real, lengthUnit: Unit, orientation: Orientation)

  /** The line formula's denominator `z0 + j zl t` is not zero. */
  predicate LineDefined(zl: Complex, z0: real, t: real)
  {
    NonZero(Add(Real(z0), J(Scale(zl, t))))
  }

  /** The impedance at sample `i`, normalised by `z0c`: `zl` seen through `i / npts` of the line. */
  function LinePoint(lib: Libm, zl: Complex, z0: real, betal: real, z0c: real, npts: nat, i: nat): Complex
    requires npts > 0 && z0c != 0.0 && LineDefined(zl, z0, lib.tan(Fraction(betal, npts, i)))
  {
    DivR(SR.LineTransform(zl, z0, lib.tan(Fraction(betal, npts, i))), z0c)
  }

  predicate LinePointDefined(lib: Libm, zl: Complex, z0: real, betal: real, z0c: real, npts: nat, i: nat, rotate: bool)
  {
    npts > 0 && z0c != 0.0 && LineDefined(zl, z0, lib.tan(Fraction(betal, npts, i))) &&
    S.ChartDefined(LinePoint(lib, zl, z0, betal, z0c, npts, i), rotate)
  }

  /**
   * The `for i in 0..=npts` loop of `calc_arc`: the line formula at `i / npts`
   * of the electrical length, normalised by `z0c`, then its chart point.
   */
  method SweepLine(lib: Libm, zl: Complex, z0: real, betal: real, z0c: real, rotate: bool, npts: nat)
    returns (gx: seq<real>, gy: seq<real>)
    requires npts > 0 && z0c != 0.0
    requires forall i: nat :: i <= npts ==> LinePointDefined(lib, zl, z0, betal, z0c, npts, i, rotate)
    ensures |gx| == npts + 1 && |gy| == npts + 1
    ensures forall i :: 0 <= i <= npts ==>
      LinePointDefined(lib, zl, z0, betal, z0c, npts, i, rotate) &&
      gx[i] == S.Chart(LinePoint(lib, zl, z0, betal, z0c, npts, i), rotate).re &&
      gy[i] == S.Chart(LinePoint(lib, zl, z0, betal, z0c, npts, i), rotate).im
  {
    gx := seq(npts + 1, _ => 0.0);
    gy := seq(npts + 1, _ => 0.0);
    for i := 0 to npts + 1
      invariant |gx| == npts + 1 && |gy| == npts + 1
      invariant forall j :: 0 <= j < i ==>
        LinePointDefined(lib, zl, z0, betal, z0c, npts, j, rotate) &&
        gx[j] == S.Chart(LinePoint(lib, zl, z0, betal, z0c, npts, j), rotate).re &&
        gy[j] == S.Chart(LinePoint(lib, zl, z0, betal, z0c, npts, j), rotate).im
    {
      var bl := betal * (i as real) / (npts as real);
      assert bl == Fraction(betal, npts, i);
      assert LinePointDefined(lib, zl, z0, betal, z0c, npts, i, rotate);
      var zout := DivR(SR.LineTransform(zl, z0, lib.tan(bl)), z0c);
      var pt := S.FindSmithCoord(zout.re, Num(zout.im), rotate).value;
      gx := gx[i := pt[0]];
      gy := gy[i := pt[1]];
    }
  }

  /** With `tan 0 = 0` the first sample is the normalised load. */
  lemma {:induction false} LineStartsAtLoad(lib: Libm, zl: Complex, z0: real, betal: real, z0c: real, npts: nat)
    requires npts > 0 && z0c != 0.0 && z0 != 0.0 && TanZero(lib)
    ensures LineDefined(zl, z0, lib.tan(Fraction(betal, npts, 0)))
    ensures LinePoint(lib, zl, z0, betal, z0c, npts, 0) == DivR(zl, z0c)
  {
    FractionEnds(betal, npts);
    SR.LineZeroLength(zl, z0, 0.0);
  }

  /** The last sample is the load seen through the whole line, normalised. */
  lemma {:induction false} LineEndsAtInput(lib: Libm, zl: Complex, z0: real, betal: real, z0c: real, npts: nat)
    requires npts > 0 && z0c != 0.0 && LineDefined(zl, z0, lib.tan(Fraction(betal, npts, npts)))
    ensures LineDefined(zl, z0, lib.tan(betal))
    ensures LinePoint(lib, zl, z0, betal, z0c, npts, npts) == DivR(SR.LineTransform(zl, z0, lib.tan(betal)), z0c)
  {
    FractionEnds(betal, npts);
  }

  class TLine {
    var z0: real
    var zl: Complex
    var er: real
    var length: real
    var lengthUnit: Unit
    var orientation: Orientation

    function Fields(): TLineFields
      reads this
    {
      TLineFields(z0, zl, er, length, lengthUnit, orientation)
    }

    /** `TLine::new`: the values as given, always in series. */
    constructor(z0: real, zl: Complex, er: real, length: real, lengthUnit: Unit)
      ensures Fields() == TLineFields(z0, zl, er, length, lengthUnit, Series)
    {
      this.z0 := z0;
      this.zl := zl;
      this.er := er;
      this.length := length;
      this.lengthUnit := lengthUnit;
      this.orientation := Series;
    }

    /** `TLine::default`: 1 um of 50 ohm line in vacuum into a matched load. */
    constructor Default()
      ensures Fields() == TLineFields(50.0, Complex(50.0, 0.0), 1.0, 1.0, Micro, Series)
    {
      z0 := 50.0;
      zl := Complex(50.0, 0.0);
      er := 1.0;
      length := 1.0;
      lengthUnit := Micro;
      orientation := Series;
    }

    function Labels(): seq<string>
    {
      ["z0", "length"]
    }

    /** `vals()` lines up with `labels()`. */
    function Vals(): (r: seq<real>)
      reads this
      ensures |r| == |Labels()| && r[0] == z0 && r[1] == length
    {
      [z0, length]
    }

    /** `units()` lines up with `labels()`; the impedance is in ohms. */
    function UnitList(): (r: seq<Unit>)
      reads this
      ensures |r| == |Labels()| && r[0] == Base && r[1] == lengthUnit
    {
      [Base, lengthUnit]
    }

    /** `tols()`: a line has no tolerances. */
    function Tols(): (r: seq<real>)
      ensures |r| == 0
    {
      []
    }

    method SetZ0(v: real)
      modifies this
      ensures Fields() == old(Fields()).(z0 := v)
    {
      z0 := v;
    }

    method SetZl(v: Complex)
      modifies this
      ensures Fields() == old(Fields()).(zl := v)
    {
      zl := v;
    }

    method SetEr(v: real)
      modifies this
      ensures Fields() == old(Fields()).(er := v)
    {
      er := v;
    }

    method SetLength(v: real)
      modifies this
      ensures Fields() == old(Fields()).(length := v)
    {
      length := v;
    }

    /** `set_length_unscaled(v)`: a length in metres stored in the current unit. */
    method SetLengthUnscaled(lib: Libm, v: real)
      requires Scalable(lib, lengthUnit)
      modifies this
      ensures Fields() == old(Fields()).(length := ScaleVal(lib, v, old(lengthUnit)))
      ensures UnscaleVal(lib, length, lengthUnit) == v
    {
      ScaleUnscaleInverse(lib, v, lengthUnit);
      length := ScaleVal(lib, v, lengthUnit);
    }

    method SetLengthUnit(u: Unit)
      modifies this
      ensures Fields() == old(Fields()).(lengthUnit := u)
    {
      lengthUnit := u;
    }

    /** `betal(f)`: the line's electrical length. */
    function LineBetaL(lib: Libm, freq: Frequency): real
      reads this, freq
      requires Scalable(lib, lengthUnit) && Scalable(lib, freq.unit)
    {
      BetaL(lib, freq, er, UnscaleVal(lib, length, lengthUnit))
    }

    predicate ZDefined(lib: Libm, freq: Frequency)
      reads this, freq
    {
      Scalable(lib, lengthUnit) && Scalable(lib, freq.unit) && LineDefined(zl, z0, lib.tan(LineBetaL(lib, freq)))
    }

    /** `z(f)`: `z0 (zl + j z0 t) / (z0 + j zl t)` with `t = tan(beta l)`, the load seen through the line. */
    function Z(lib: Libm, freq: Frequency): Complex
      reads this, freq
      requires ZDefined(lib, freq)
    {
      SR.LineTransform(zl, z0, lib.tan(LineBetaL(lib, freq)))
    }

    /** A line of zero electrical length shows its load. */
    lemma {:induction false} ZOfZeroLength(lib: Libm, freq: Frequency)
      requires Scalable(lib, lengthUnit) && Scalable(lib, freq.unit) && z0 != 0.0
      requires lib.tan(LineBetaL(lib, freq)) == 0.0
      ensures ZDefined(lib, freq) && Z(lib, freq) == zl
    {
      SR.LineZeroLength(zl, z0, lib.tan(LineBetaL(lib, freq)));
    }

    /** A line loaded by its own characteristic impedance shows that impedance at any length. */
    lemma {:induction false} ZOfMatchedLine(lib: Libm, freq: Frequency)
      requires Scalable(lib, lengthUnit) && Scalable(lib, freq.unit) && z0 != 0.0 && zl == Real(z0)
      ensures ZDefined(lib, freq) && Z(lib, freq) == zl
    {
      SR.LineMatched(z0, lib.tan(LineBetaL(lib, freq)));
    }

    /** The point sample `i` plots. */
    function SamplePoint(lib: Libm, freq: Frequency, z0c: real, npts: nat, i: nat): Complex
      reads this, freq
      requires Scalable(lib, lengthUnit) && Scalable(lib, freq.unit)
      requires LinePointDefined(lib, zl, z0, LineBetaL(lib, freq), z0c, npts, i, Rotate(orientation))
    {
      LinePoint(lib, zl, z0, LineBetaL(lib, freq), z0c, npts, i)
    }

    predicate ArcDefined(lib: Libm, freq: Frequency, z0c: real, npts: nat)
      reads this, freq
    {
      Scalable(lib, lengthUnit) && Scalable(lib, freq.unit) && npts > 0 && z0c != 0.0 &&
      forall i: nat :: i <= npts ==> LinePointDefined(lib, zl, z0, LineBetaL(lib, freq), z0c, npts, i, Rotate(orientation))
    }

    /**
     * `calc_arc`: the `npts + 1` chart points of the load seen through growing
     * lengths of line, whatever `zin_norm` is, with the first and last chart
     * points passed back through `calc_z_norm` as the start and end.
     */
    method CalcArc(lib: Libm, freq: Frequency, zinNorm: Complex, z0c: real, npts: nat,
                   calcZNorm: (Complex, real) -> Complex) returns (a: Arc)
      requires ArcDefined(lib, freq, z0c, npts)
      ensures |a.gx| == npts + 1 && |a.gy| == npts + 1
      ensures forall i :: 0 <= i <= npts ==>
        a.gx[i] == S.Chart(SamplePoint(lib, freq, z0c, npts, i), Rotate(orientation)).re &&
        a.gy[i] == S.Chart(SamplePoint(lib, freq, z0c, npts, i), Rotate(orientation)).im
      ensures a.start == calcZNorm(S.Chart(SamplePoint(lib, freq, z0c, npts, 0), Rotate(orientation)), z0c)
      ensures a.end == calcZNorm(S.Chart(SamplePoint(lib, freq, z0c, npts, npts), Rotate(orientation)), z0c)
    {
      var betal := LineBetaL(lib, freq);
      var gx, gy := SweepLine(lib, zl, z0, betal, z0c, Rotate(orientation), npts);
      var pt1 := calcZNorm(Complex(gx[0], gy[0]), z0c);
      var pt2 := calcZNorm(Complex(gx[|gx| - 1], gy[|gy| - 1]), z0c);
      a := Arc(gx, gy, pt1, pt2);
    }

    /**
     * When `calc_z_norm` undoes the chart, a series line reports its load
     * (with `tan 0 = 0`) as the start and its normalised `z(f)` as the end.
     */
    lemma {:induction false} ReportedEnds(lib: Libm, freq: Frequency, z0c: real, npts: nat,
                                          calcZNorm: (Complex, real) -> Complex)
      requires ArcDefined(lib, freq, z0c, npts) && orientation == Series
      requires InvertsChart(calcZNorm, z0c) && TanZero(lib) && z0 != 0.0
      ensures calcZNorm(S.Chart(SamplePoint(lib, freq, z0c, npts, 0), false), z0c) == DivR(zl, z0c)
      ensures ZDefined(lib, freq)
      ensures calcZNorm(S.Chart(SamplePoint(lib, freq, z0c, npts, npts), false), z0c) == ZNorm(Z(lib, freq), z0c)
    {
      var betal := LineBetaL(lib, freq);
      assert Rotate(orientation) == false;
      assert LinePointDefined(lib, zl, z0, betal, z0c, npts, 0, false);
      assert LinePointDefined(lib, zl, z0, betal, z0c, npts, npts, false);
      LineStartsAtLoad(lib, zl, z0, betal, z0c, npts);
      LineEndsAtInput(lib, zl, z0, betal, z0c, npts);
      UndoChart(calcZNorm, z0c, LinePoint(lib, zl, z0, betal, z0c, npts, 0));
      UndoChart(calcZNorm, z0c, LinePoint(lib, zl, z0, betal, z0c, npts, npts));
    }

    /** A line loaded by its own characteristic impedance plots one point `z0 / z0c` throughout. */
    lemma {:induction false} MatchedLineStaysPut(lib: Libm, freq: Frequency, z0c: real, npts: nat, i: nat)
      requires Scalable(lib, lengthUnit) && Scalable(lib, freq.unit) && z0 != 0.0 && zl == Real(z0)
      requires LinePointDefined(lib, zl, z0, LineBetaL(lib, freq), z0c, npts, i, Rotate(orientation))
      ensures SamplePoint(lib, freq, z0c, npts, i) == DivR(Real(z0), z0c)
    {
      SR.LineMatched(z0, lib.tan(Fraction(LineBetaL(lib, freq), npts, i)));
    }
  }
}
