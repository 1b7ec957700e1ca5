/**
 * `element/shortedstub.rs`: a short-circuited stub of characteristic
 * impedance `z0`, relative permittivity `er` and length `length`, always in
 * shunt.  Its sweep adds the stub's susceptance to the input admittance,
 * starting a quarter wavelength in when the stub is shorter than half a
 * wavelength.
 */
module ShortedStubs {
  import opened Numeric
  import opened Units
  import opened Frequencies
  import opened Elements
  import opened Lines
  import S = Smith

  /** All fields of a shorted stub, for stating what a setter leaves alone. */
  datatype ShortedStubFields = ShortedStubFields(z0: real, er: real, length: real, lengthUnit: Unit, orientation: Orientation)

  /**
   * `-1 / ((t z0) / z0c)`: the normalised susceptance of a shorted stub with
   * `tan(beta l) = t`, seen from a system of impedance `z0c`.  Dividing by a
   * zero gives minus infinity.
   */
  function ShortSusceptance(t: real, z0: real, z0c: real): (r: Value)
    requires z0c != 0.0
    ensures r.IsFinite() <==> t * z0 != 0.0
  {
    var d := (t * z0) / z0c;
    if d == 0.0 then NegInf else Num(-1.0 / d)
  }

  /** `ShortSusceptanceIsInverse` for an impedance and a tangent given by name. */
  lemma EndSusceptanceOf(z: Complex, t: real, tr: real, z0: real, z0c: real)
    requires z == Complex(0.0, z0 * t) && tr == t && z0c != 0.0 && t * z0 != 0.0
    ensures NonZero(ZNorm(z, z0c)) && Inv(ZNorm(z, z0c)) == Complex(0.0, ShortSusceptance(tr, z0, z0c).v)
  {
    ShortSusceptanceIsInverse(t, z0, z0c);
  }

  /** The susceptance the sweep adds is the inverse of the stub's normalised impedance `j z0 t / z0c`. */
  lemma {:induction false} ShortSusceptanceIsInverse(t: real, z0: real, z0c: real)
    requires z0c != 0.0 && t * z0 != 0.0
    ensures NonZero(ZNorm(Complex(0.0, z0 * t), z0c))
    ensures Inv(ZNorm(Complex(0.0, z0 * t), z0c)) == Complex(0.0, ShortSusceptance(t, z0, z0c).v)
  {
    var b := (z0 * t) / z0c;
    assert t * z0 == z0 * t;
    assert b != 0.0;
    var zn := ZNorm(Complex(0.0, z0 * t), z0c);
    assert zn == Complex(0.0, b);
    InvImaginary(b);
  }

  class ShortedStub {
    var z0: real
    var er: real
    var length: real
    var lengthUnit: Unit
    var orientation: Orientation

    function Fields(): ShortedStubFields
      reads this
    {
      ShortedStubFields(z0, er, length, lengthUnit, orientation)
    }

    /** `ShortedStub::new`: the values as given, always in shunt. */
    constructor(z0: real, er: real, length: real, lengthUnit: Unit)
      ensures Fields() == ShortedStubFields(z0, er, length, lengthUnit, Shunt)
    {
      this.z0 := z0;
      this.er := er;
      this.length := length;
      this.lengthUnit := lengthUnit;
      this.orientation := Shunt;
    }

    /** `ShortedStub::default`: a 1 um stub of a 50 ohm line in vacuum. */
    constructor Default()
      ensures Fields() == ShortedStubFields(50.0, 1.0, 1.0, Micro, Shunt)
    {
      z0 := 50.0;
      er := 1.0;
      length := 1.0;
      lengthUnit := Micro;
      orientation := Shunt;
    }

    function Labels(): seq<string>
    {
      ["z0", "length"]
    }

    /** `vals()` lines up with `labels()`. */
    function Vals(): (r: seq<real>)
      reads this
      ensures |r| == |Labels()| && r[0] == z0 && r[1] == length
    {
      [z0, length]
    }

    /** `units()` lines up with `labels()`; the impedance is in ohms. */
    function UnitList(): (r: seq<Unit>)
      reads this
      ensures |r| == |Labels()| && r[0] == Base && r[1] == lengthUnit
    {
      [Base, lengthUnit]
    }

    /** `tols()`: a stub has no tolerances. */
    function Tols(): (r: seq<real>)
      ensures |r| == 0
    {
      []
    }

    method SetZ0(v: real)
      modifies this
      ensures Fields() == old(Fields()).(z0 := v)
    {
      z0 := v;
    }

    method SetEr(v: real)
      modifies this
      ensures Fields() == old(Fields()).(er := v)
    {
      er := v;
    }

    method SetLength(v: real)
      modifies this
      ensures Fields() == old(Fields()).(length := v)
    {
      length := v;
    }

    /** `set_length_unscaled(v)`: a length in metres stored in the current unit. */
    method SetLengthUnscaled(lib: Libm, v: real)
      requires Scalable(lib, lengthUnit)
      modifies this
      ensures Fields() == old(Fields()).(length := ScaleVal(lib, v, old(lengthUnit)))
      ensures UnscaleVal(lib, length, lengthUnit) == v
    {
      ScaleUnscaleInverse(lib, v, lengthUnit);
      length := ScaleVal(lib, v, lengthUnit);
    }

    method SetLengthUnit(u: Unit)
      modifies this
      ensures Fields() == old(Fields()).(lengthUnit := u)
    {
      lengthUnit := u;
    }

    /** The length in metres. */
    function Len(lib: Libm): real
      reads this
      requires Scalable(lib, lengthUnit)
    {
      UnscaleVal(lib, length, lengthUnit)
    }

    /** `betal(f)`: the stub's electrical length. */
    function StubBetaL(lib: Libm, freq: Frequency): real
      reads this, freq
      requires Scalable(lib, lengthUnit) && Scalable(lib, freq.unit)
    {
      BetaL(lib, freq, er, Len(lib))
    }

    /** The units convert and the wavelength in the stub is finite. */
    predicate WaveDefined(lib: Libm, freq: Frequency)
      reads this, freq
    {
      Scalable(lib, lengthUnit) && Scalable(lib, freq.unit) && freq.Freq(lib) * lib.sqrt(er) != 0.0
    }

    /**
     * `betal_rot(f)`: below half a wavelength, the phase of a quarter
     * wavelength plus that of the rest of the stub, which is the stub's
     * electrical length again.
     */
    function BetaLRot(lib: Libm, freq: Frequency): (r: real)
      reads this, freq
      requires WaveDefined(lib, freq)
      ensures r == StubBetaL(lib, freq)
    {
      var wl := freq.Wavelength(lib, er);
      if Len(lib) < 0.5 * wl then
        Beta(lib, freq, er) * (wl / 4.0 + (Len(lib) - wl / 4.0))
      else
        StubBetaL(lib, freq)
    }

    /**
     * `wave`: where the sweep starts, a quarter wavelength (`pi / 2` of
     * phase) in for a stub shorter than half a wavelength, else at 0.
     */
    function Wave(lib: Libm, freq: Frequency): (r: real)
      reads this, freq
      requires WaveDefined(lib, freq)
      ensures r != 0.0 <==> Len(lib) < 0.5 * freq.Wavelength(lib, er)
      ensures r != 0.0 ==> Beta(lib, freq, er) * r == PI / 2.0
    {
      var wl := freq.Wavelength(lib, er);
      BetaWavelength(lib, freq, er);
      QuarterOfTurn(Beta(lib, freq, er), wl);
      if Len(lib) < 0.5 * wl then wl / 4.0 else 0.0
    }

    /** The tangent argument of sample `i`: from `wave` to the stub's full length. */
    function SweepArg(lib: Libm, freq: Frequency, npts: nat, i: nat): real
      reads this, freq
      requires WaveDefined(lib, freq) && npts > 0
    {
      SweepArgOf(Beta(lib, freq, er), Len(lib), Wave(lib, freq), npts, i)
    }

    /** The sweep starts at 0, or at `pi / 2` for a short stub, and ends at the electrical length. */
    lemma {:induction false} SweepArgEnds(lib: Libm, freq: Frequency, npts: nat)
      requires WaveDefined(lib, freq) && npts > 0
      ensures SweepArg(lib, freq, npts, 0) == if Wave(lib, freq) == 0.0 then 0.0 else PI / 2.0
      ensures SweepArg(lib, freq, npts, npts) == StubBetaL(lib, freq)
    {
      SweepArgOfEnds(Beta(lib, freq, er), Len(lib), Wave(lib, freq), npts);
    }

    /** `z(f)`: `j z0 tan(beta l)`, a pure reactance. */
    function Z(lib: Libm, freq: Frequency): (z: Complex)
      reads this, freq
      requires Scalable(lib, lengthUnit) && Scalable(lib, freq.unit)
      ensures z.re == 0.0
    {
      Complex(0.0, z0 * lib.tan(StubBetaL(lib, freq)))
    }

    /** The point sample `i` plots: the input admittance plus the stub's susceptance, `inf` read as 0. */
    function SamplePoint(lib: Libm, freq: Frequency, zinNorm: Complex, z0c: real, npts: nat, i: nat): Complex
      reads this, freq
      requires WaveDefined(lib, freq) && npts > 0 && z0c != 0.0
    {
      StubPoint(lib, Beta(lib, freq, er), Len(lib), Wave(lib, freq), zinNorm, z0, z0c, npts, i)
    }

    predicate ArcDefined(lib: Libm, freq: Frequency, zinNorm: Complex, z0c: real, npts: nat)
      reads this, freq
    {
      WaveDefined(lib, freq) && npts > 0 && z0c != 0.0 &&
      forall i: nat :: i <= npts ==> S.ChartDefined(SamplePoint(lib, freq, zinNorm, z0c, npts, i), Rotate(orientation))
    }

    /**
     * `calc_arc`: the `npts + 1` chart points of the swept stub, the input as
     * the start, and the input plus the susceptance at `betal_rot` as the end.
     */
    method CalcArc(lib: Libm, freq: Frequency, zinNorm: Complex, z0c: real, npts: nat) returns (a: StubArc)
      requires ArcDefined(lib, freq, zinNorm, z0c, npts)
      ensures |a.gx| == npts + 1 && |a.gy| == npts + 1
      ensures forall i :: 0 <= i <= npts ==>
        a.gx[i] == S.Chart(SamplePoint(lib, freq, zinNorm, z0c, npts, i), Rotate(orientation)).re &&
        a.gy[i] == S.Chart(SamplePoint(lib, freq, zinNorm, z0c, npts, i), Rotate(orientation)).im
      ensures a.start == zinNorm && a.endRe == zinNorm.re
      ensures a.endIm == S.AddValue(zinNorm.im, ShortSusceptance(lib.tan(BetaLRot(lib, freq)), z0, z0c))
    {
      var beta, len, wave := Beta(lib, freq, er), Len(lib), Wave(lib, freq);
      forall i: nat | i <= npts
        ensures S.ChartDefined(StubPoint(lib, beta, len, wave, zinNorm, z0, z0c, npts, i), Rotate(orientation))
      {
        assert SamplePoint(lib, freq, zinNorm, z0c, npts, i) == StubPoint(lib, beta, len, wave, zinNorm, z0, z0c, npts, i);
      }
      var gx, gy := SweepStub(lib, beta, len, wave, zinNorm, z0, z0c, Rotate(orientation), npts);
      var endIm := S.AddValue(zinNorm.im, ShortSusceptance(lib.tan(BetaLRot(lib, freq)), z0, z0c));
      a := StubArc(gx, gy, zinNorm, zinNorm.re, endIm);
    }

    /** The reported end is the point of the last sample. */
    lemma {:induction false} EndIsLastSample(lib: Libm, freq: Frequency, zinNorm: Complex, z0c: real, npts: nat)
      requires WaveDefined(lib, freq) && npts > 0 && z0c != 0.0
      ensures SamplePoint(lib, freq, zinNorm, z0c, npts, npts) ==
        Complex(zinNorm.re, S.FiniteIm(S.AddValue(zinNorm.im, ShortSusceptance(lib.tan(BetaLRot(lib, freq)), z0, z0c))))
    {
      SweepArgEnds(lib, freq, npts);
    }

    /** The susceptance the sweep ends on is the inverse of the stub's `z(f)` normalised by `z0c`. */
    lemma {:induction false} EndSusceptanceIsZ(lib: Libm, freq: Frequency, z0c: real)
      requires WaveDefined(lib, freq) && z0c != 0.0 && lib.tan(StubBetaL(lib, freq)) * z0 != 0.0
      ensures NonZero(ZNorm(Z(lib, freq), z0c))
      ensures Inv(ZNorm(Z(lib, freq), z0c)) == Complex(0.0, ShortSusceptance(lib.tan(BetaLRot(lib, freq)), z0, z0c).v)
    {
      var t := lib.tan(StubBetaL(lib, freq));
      EndSusceptanceOf(Z(lib, freq), t, lib.tan(BetaLRot(lib, freq)), z0, z0c);
    }
  }

  /**
   * The tangent argument at sample `i` of `npts` of a stub of phase constant
   * `beta` and length `len`: from 0 to `beta len`, or from `beta wave` when
   * the sweep starts `wave` in.
   */
  function SweepArgOf(beta: real, len: real, wave: real, npts: nat, i: nat): real
    requires npts > 0
  {
    if wave == 0.0 then Fraction(beta * len, npts, i)
    else beta * (wave + ((len - wave) * (i as real)) / (npts as real))
  }

  lemma {:induction false} SweepArgOfEnds(beta: real, len: real, wave: real, npts: nat)
    requires npts > 0
    ensures SweepArgOf(beta, len, wave, npts, 0) == if wave == 0.0 then 0.0 else beta * wave
    ensures SweepArgOf(beta, len, wave, npts, npts) == beta * len
  {
    FractionEnds(beta * len, npts);
    var n := npts as real;
    assert ((len - wave) * n) / n == len - wave;
  }

  /** The point sample `i` of a stub sweep plots, from the stub's phase constant, length and start. */
  function StubPoint(lib: Libm, beta: real, len: real, wave: real, zinNorm: Complex, z0: real, z0c: real, npts: nat, i: nat): Complex
    requires npts > 0 && z0c != 0.0
  {
    Complex(zinNorm.re, S.FiniteIm(S.AddValue(zinNorm.im, ShortSusceptance(lib.tan(SweepArgOf(beta, len, wave, npts, i)), z0, z0c))))
  }

  /**
   * The `for i in 0..=npts` loop of `calc_arc`: the tangent at the sample's
   * argument, the stub susceptance it gives, and that added to the input.
   */
  method SweepStub(lib: Libm, beta: real, len: real, wave: real, zinNorm: Complex, z0: real, z0c: real,
                   rotate: bool, npts: nat) returns (gx: seq<real>, gy: seq<real>)
    requires npts > 0 && z0c != 0.0
    requires forall i: nat :: i <= npts ==> S.ChartDefined(StubPoint(lib, beta, len, wave, zinNorm, z0, z0c, npts, i), rotate)
    ensures |gx| == npts + 1 && |gy| == npts + 1
    ensures forall i :: 0 <= i <= npts ==>
      gx[i] == S.Chart(StubPoint(lib, beta, len, wave, zinNorm, z0, z0c, npts, i), rotate).re &&
      gy[i] == S.Chart(StubPoint(lib, beta, len, wave, zinNorm, z0, z0c, npts, i), rotate).im
  {
    gx := seq(npts + 1, _ => 0.0);
    gy := seq(npts + 1, _ => 0.0);
    for i := 0 to npts + 1
      invariant |gx| == npts + 1 && |gy| == npts + 1
      invariant forall j :: 0 <= j < i ==>
        gx[j] == S.Chart(StubPoint(lib, beta, len, wave, zinNorm, z0, z0c, npts, j), rotate).re &&
        gy[j] == S.Chart(StubPoint(lib, beta, len, wave, zinNorm, z0, z0c, npts, j), rotate).im
    {
      var arg;
      if wave == 0.0 {
        arg := beta * len * (i as real) / (npts as real);
      } else {
        arg := beta * (wave + ((len - wave) * (i as real)) / (npts as real));
      }
      assert arg == SweepArgOf(beta, len, wave, npts, i);
      var adm := ShortSusceptance(lib.tan(arg), z0, z0c);
      assert S.ChartDefined(StubPoint(lib, beta, len, wave, zinNorm, z0, z0c, npts, i), rotate);
      var pt := S.FindSmithCoord(zinNorm.re, S.AddValue(zinNorm.im, adm), rotate).value;
      gx := gx[i := pt[0]];
      gy := gy[i := pt[1]];
    }
  }

  /** A quarter of a turn: `b wl = 2 pi` gives `b (wl / 4) = pi / 2`. */
  lemma QuarterOfTurn(b: real, wl: real)
    ensures b * wl == 2.0 * PI ==> b * (wl / 4.0) == PI / 2.0
  {
  }
}
