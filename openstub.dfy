/**
 * `element/openstub.rs`: an open-circuited stub of characteristic impedance
 * `z0`, relative permittivity `er` and length `length`, always in shunt.
 * Its sweep adds the stub's susceptance `tan(beta l) / z0` to the input
 * admittance.  The load field `zl` is stored but nothing reads it.
 */
module OpenStubs {
  import opened Numeric
  import opened Units
  import opened Frequencies
  import opened Elements
  import opened Lines
  import S = Smith

  /** All fields of an open stub, for stating what a setter leaves alone. */
  datatype OpenStubFields = OpenStubFields(z0: real, zl: Complex, er: real, length: real, lengthUnit: Unit, orientation: Orientation)

  /**
   * `t / (z0 / z0c)`: the normalised susceptance of an open stub with
   * `tan(beta l) = t`, seen from a system of impedance `z0c`.  With `z0 = 0`
   * it is an infinity of the sign of `t`, or not a number when `t` is 0.
   */
  function OpenSusceptance(t: real, z0: real, z0c: real): (r: Value)
    requires z0c != 0.0
    ensures r.IsFinite() <==> z0 != 0.0
  {
    var d := z0 / z0c;
    if d == 0.0 then
      if t > 0.0 then PosInf else if t < 0.0 then NegInf else NaN
    else Num(t / d)
  }

  /** The susceptance is the inverse of the stub's normalised impedance `-j z0 / (t z0c)`. */
  lemma {:induction false} OpenSusceptanceIsInverse(t: real, z0: real, z0c: real)
    requires z0c != 0.0 && z0 != 0.0 && t != 0.0
    ensures NonZero(ZNorm(Complex(0.0, -z0 / t), z0c))
    ensures Inv(ZNorm(Complex(0.0, -z0 / t), z0c)) == Complex(0.0, OpenSusceptance(t, z0, z0c).v)
  {
    var b := (-z0 / t) / z0c;
    assert b != 0.0 by {
      MulNonZero(-z0 / t, 1.0 / z0c);
    }
    assert ZNorm(Complex(0.0, -z0 / t), z0c) == Complex(0.0, b);
    InvImaginary(b);
    NegRecipOfQuotient(t, z0, z0c);
  }

  /** `-1 / ((-z0 / t) / z0c) = t / (z0 / z0c)`. */
  lemma {:induction false} NegRecipOfQuotient(t: real, z0: real, z0c: real)
    requires z0c != 0.0 && z0 != 0.0 && t != 0.0
    ensures -1.0 / ((-z0 / t) / z0c) == t / (z0 / z0c)
  {
    var b := (-z0 / t) / z0c;
    assert b * (t * z0c) == -z0;
    assert (t / (z0 / z0c)) * b == -1.0 by {
      assert (t / (z0 / z0c)) * z0 == t * z0c;
    }
  }

  /** The point sample `i` plots: the input admittance plus the susceptance at `i / npts` of the length. */
  function OpenPoint(lib: Libm, betal: real, zinNorm: Complex, z0: real, z0c: real, npts: nat, i: nat): Complex
    requires npts > 0 && z0c != 0.0
  {
    Complex(zinNorm.re, S.FiniteIm(S.AddValue(zinNorm.im, OpenSusceptance(lib.tan(Fraction(betal, npts, i)), z0, z0c))))
  }

  /**
   * The `for i in 0..=npts` loop of `calc_arc`: the tangent at the sample's
   * part of the electrical length, scaled by `z0c / z0`, added to the input.
   */
  method SweepOpen(lib: Libm, betal: real, zinNorm: Complex, z0: real, z0c: real, rotate: bool, npts: nat)
    returns (gx: seq<real>, gy: seq<real>)
    requires npts > 0 && z0c != 0.0
    requires forall i: nat :: i <= npts ==> S.ChartDefined(OpenPoint(lib, betal, zinNorm, z0, z0c, npts, i), rotate)
    ensures |gx| == npts + 1 && |gy| == npts + 1
    ensures forall i :: 0 <= i <= npts ==>
      gx[i] == S.Chart(OpenPoint(lib, betal, zinNorm, z0, z0c, npts, i), rotate).re &&
      gy[i] == S.Chart(OpenPoint(lib, betal, zinNorm, z0, z0c, npts, i), rotate).im
  {
    gx := seq(npts + 1, _ => 0.0);
    gy := seq(npts + 1, _ => 0.0);
    for i := 0 to npts + 1
      invariant |gx| == npts + 1 && |gy| == npts + 1
      invariant forall j :: 0 <= j < i ==>
        gx[j] == S.Chart(OpenPoint(lib, betal, zinNorm, z0, z0c, npts, j), rotate).re &&
        gy[j] == S.Chart(OpenPoint(lib, betal, zinNorm, z0, z0c, npts, j), rotate).im
    {
      var tanBetaArg := betal * (i as real) / (npts as real);
      assert tanBetaArg == Fraction(betal, npts, i);
      assert S.ChartDefined(OpenPoint(lib, betal, zinNorm, z0, z0c, npts, i), rotate);
      var pt := S.FindSmithCoord(zinNorm.re, S.AddValue(zinNorm.im, OpenSusceptance(lib.tan(tanBetaArg), z0, z0c)), rotate).value;
      gx := gx[i := pt[0]];
      gy := gy[i := pt[1]];
    }
  }

  class OpenStub {
    var z0: real
    var zl: Complex
    var er: real
    var length: real
    var lengthUnit: Unit
    var orientation: Orientation

    function Fields(): OpenStubFields
      reads this
    {
      OpenStubFields(z0, zl, er, length, lengthUnit, orientation)
    }

    /** `OpenStub::new`: the values as given, always in shunt. */
    constructor(z0: real, zl: Complex, er: real, length: real, lengthUnit: Unit)
      ensures Fields() == OpenStubFields(z0, zl, er, length, lengthUnit, Shunt)
    {
      this.z0 := z0;
      this.zl := zl;
      this.er := er;
      this.length := length;
      this.lengthUnit := lengthUnit;
      this.orientation := Shunt;
    }

    /** `OpenStub::default`: a 1 um stub of a 50 ohm line in vacuum. */
    constructor Default()
      ensures Fields() == OpenStubFields(50.0, Complex(50.0, 0.0), 1.0, 1.0, Micro, Shunt)
    {
      z0 := 50.0;
      zl := Complex(50.0, 0.0);
      er := 1.0;
      length := 1.0;
      lengthUnit := Micro;
      orientation := Shunt;
    }

    function Labels(): seq<string>
    {
      ["z0", "length"]
    }

    /** `vals()` lines up with `labels()`. */
    function Vals(): (r: seq<real>)
      reads this
      ensures |r| == |Labels()| && r[0] == z0 && r[1] == length
    {
      [z0, length]
    }

    /** `units()` lines up with `labels()`; the impedance is in ohms. */
    function UnitList(): (r: seq<Unit>)
      reads this
      ensures |r| == |Labels()| && r[0] == Base && r[1] == lengthUnit
    {
      [Base, lengthUnit]
    }

    /** `tols()`: a stub has no tolerances. */
    function Tols(): (r: seq<real>)
      ensures |r| == 0
    {
      []
    }

    method SetZ0(v: real)
      modifies this
      ensures Fields() == old(Fields()).(z0 := v)
    {
      z0 := v;
    }

    method SetEr(v: real)
      modifies this
      ensures Fields() == old(Fields()).(er := v)
    {
      er := v;
    }

    method SetLength(v: real)
      modifies this
      ensures Fields() == old(Fields()).(length := v)
    {
      length := v;
    }

    /** `set_length_unscaled(v)`: a length in metres stored in the current unit. */
    method SetLengthUnscaled(lib: Libm, v: real)
      requires Scalable(lib, lengthUnit)
      modifies this
      ensures Fields() == old(Fields()).(length := ScaleVal(lib, v, old(lengthUnit)))
      ensures UnscaleVal(lib, length, lengthUnit) == v
    {
      ScaleUnscaleInverse(lib, v, lengthUnit);
      length := ScaleVal(lib, v, lengthUnit);
    }

    method SetLengthUnit(u: Unit)
      modifies this
      ensures Fields() == old(Fields()).(lengthUnit := u)
    {
      lengthUnit := u;
    }

    /** `betal(f)`: the stub's electrical length. */
    function StubBetaL(lib: Libm, freq: Frequency): real
      reads this, freq
      requires Scalable(lib, lengthUnit) && Scalable(lib, freq.unit)
    {
      BetaL(lib, freq, er, UnscaleVal(lib, length, lengthUnit))
    }

    /** `z(f)`: `-j z0 / tan(beta l)`, a pure reactance. */
    function Z(lib: Libm, freq: Frequency): (z: Complex)
      reads this, freq
      requires Scalable(lib, lengthUnit) && Scalable(lib, freq.unit) && lib.tan(StubBetaL(lib, freq)) != 0.0
      ensures z.re == 0.0
    {
      var t := lib.tan(StubBetaL(lib, freq));
      Complex(0.0 / t, -z0 / t)
    }

    /** The point sample `i` plots. */
    function SamplePoint(lib: Libm, freq: Frequency, zinNorm: Complex, z0c: real, npts: nat, i: nat): Complex
      reads this, freq
      requires Scalable(lib, lengthUnit) && Scalable(lib, freq.unit) && npts > 0 && z0c != 0.0
    {
      OpenPoint(lib, StubBetaL(lib, freq), zinNorm, z0, z0c, npts, i)
    }

    predicate ArcDefined(lib: Libm, freq: Frequency, zinNorm: Complex, z0c: real, npts: nat)
      reads this, freq
    {
      Scalable(lib, lengthUnit) && Scalable(lib, freq.unit) && npts > 0 && z0c != 0.0 &&
      forall i: nat :: i <= npts ==> S.ChartDefined(SamplePoint(lib, freq, zinNorm, z0c, npts, i), Rotate(orientation))
    }

    /**
     * `calc_arc`: the `npts + 1` chart points of the swept stub, the input as
     * the start, and the input plus the stub's full susceptance as the end.
     */
    method CalcArc(lib: Libm, freq: Frequency, zinNorm: Complex, z0c: real, npts: nat) returns (a: StubArc)
      requires ArcDefined(lib, freq, zinNorm, z0c, npts)
      ensures |a.gx| == npts + 1 && |a.gy| == npts + 1
      ensures forall i :: 0 <= i <= npts ==>
        a.gx[i] == S.Chart(SamplePoint(lib, freq, zinNorm, z0c, npts, i), Rotate(orientation)).re &&
        a.gy[i] == S.Chart(SamplePoint(lib, freq, zinNorm, z0c, npts, i), Rotate(orientation)).im
      ensures a.start == zinNorm && a.endRe == zinNorm.re
      ensures a.endIm == S.AddValue(zinNorm.im, OpenSusceptance(lib.tan(StubBetaL(lib, freq)), z0, z0c))
    {
      var betal := StubBetaL(lib, freq);
      var youtIm := S.AddValue(zinNorm.im, OpenSusceptance(lib.tan(betal), z0, z0c));
      forall i: nat | i <= npts
        ensures S.ChartDefined(OpenPoint(lib, betal, zinNorm, z0, z0c, npts, i), Rotate(orientation))
      {
        assert SamplePoint(lib, freq, zinNorm, z0c, npts, i) == OpenPoint(lib, betal, zinNorm, z0, z0c, npts, i);
      }
      var gx, gy := SweepOpen(lib, betal, zinNorm, z0, z0c, Rotate(orientation), npts);
      a := StubArc(gx, gy, zinNorm, zinNorm.re, youtIm);
    }

    /** With `tan 0 = 0` the sweep starts at the input itself. */
    lemma {:induction false} FirstSampleIsInput(lib: Libm, freq: Frequency, zinNorm: Complex, z0c: real, npts: nat)
      requires Scalable(lib, lengthUnit) && Scalable(lib, freq.unit) && npts > 0 && z0c != 0.0
      requires TanZero(lib) && z0 != 0.0
      ensures SamplePoint(lib, freq, zinNorm, z0c, npts, 0) == zinNorm
    {
      FractionEnds(StubBetaL(lib, freq), npts);
      assert 0.0 / (z0 / z0c) == 0.0;
    }

    /** The reported end is the point of the last sample. */
    lemma {:induction false} EndIsLastSample(lib: Libm, freq: Frequency, zinNorm: Complex, z0c: real, npts: nat)
      requires Scalable(lib, lengthUnit) && Scalable(lib, freq.unit) && npts > 0 && z0c != 0.0
      ensures SamplePoint(lib, freq, zinNorm, z0c, npts, npts) ==
        Complex(zinNorm.re, S.FiniteIm(S.AddValue(zinNorm.im, OpenSusceptance(lib.tan(StubBetaL(lib, freq)), z0, z0c))))
    {
      FractionEnds(StubBetaL(lib, freq), npts);
    }

    /** The susceptance the sweep ends on is the inverse of the stub's `z(f)` normalised by `z0c`. */
    lemma {:induction false} EndSusceptanceIsZ(lib: Libm, freq: Frequency, z0c: real)
      requires Scalable(lib, lengthUnit) && Scalable(lib, freq.unit) && lib.tan(StubBetaL(lib, freq)) != 0.0
      requires z0c != 0.0 && z0 != 0.0
      ensures NonZero(ZNorm(Z(lib, freq), z0c))
      ensures Inv(ZNorm(Z(lib, freq), z0c)) == Complex(0.0, OpenSusceptance(lib.tan(StubBetaL(lib, freq)), z0, z0c).v)
    {
      var t := lib.tan(StubBetaL(lib, freq));
      assert Z(lib, freq) == Complex(0.0, -z0 / t);
      OpenSusceptanceIsInverse(t, z0, z0c);
    }
  }
}
