/**
 * `element.rs` and the sweep the element types share: the orientation of an
 * element and its `rotate` flag, the default normalised impedance, and the
 * `npts + 1` chart samples of a straight sweep between two points.
 *
 * The element files read `find_smith_coord(x, y, rotate)` as the chart point
 * `(w - 1) / (w + 1)` of `w = z` or `w = 1 / z`; that point is `Smith.Chart`.
 */
module Elements {
  import opened Numeric
  import S = Smith

  /** `Orientation`: a series or a shunt element. */
  datatype Orientation = Series | Shunt

  /** `From<Orientation> for bool`: the `rotate` flag, set for a shunt element only. */
  function Rotate(o: Orientation): (r: bool)
    ensures r <==> o == Shunt
  {
    match o
    case Series => false
    case Shunt => true
  }

  /** The trait default `z_norm(f, z0)`: the impedance in units of `z0`. */
  function ZNorm(z: Complex, z0: real): (r: Complex)
    requires z0 != 0.0
    ensures Scale(r, z0) == z
  {
    DivR(z, z0)
  }

  /** What `calc_arc` returns: the x and y samples, and the start and end points. */
  datatype Arc = Arc(gx: seq<real>, gy: seq<real>, start: Complex, end: Complex)

  /** The point `i / npts` of the way from `s` to `e`, computed as the sources do. */
  function SweepPoint(s: Complex, e: Complex, npts: nat, i: nat): Complex
    requires npts > 0
  {
    Complex(s.re + ((e.re - s.re) * (i as real)) / (npts as real),
            s.im + ((e.im - s.im) * (i as real)) / (npts as real))
  }

  /** At least one step, and every sample has a chart point. */
  predicate SweepDefined(s: Complex, e: Complex, npts: nat, rotate: bool)
  {
    npts > 0 && forall i: nat :: i <= npts ==> S.ChartDefined(SweepPoint(s, e, npts, i), rotate)
  }

  /** `gx` and `gy` hold the chart points of the `npts + 1` sweep points from `s` to `e`. */
  predicate Swept(gx: seq<real>, gy: seq<real>, s: Complex, e: Complex, npts: nat, rotate: bool)
    requires SweepDefined(s, e, npts, rotate)
  {
    |gx| == npts + 1 && |gy| == npts + 1 &&
    forall i :: 0 <= i <= npts ==>
      gx[i] == S.Chart(SweepPoint(s, e, npts, i), rotate).re &&
      gy[i] == S.Chart(SweepPoint(s, e, npts, i), rotate).im
  }

  /** The `for i in 0..=npts` loop of `calc_arc`, filling two `npts + 1` vectors. */
  method SweepArc(s: Complex, e: Complex, rotate: bool, npts: nat) returns (gx: seq<real>, gy: seq<real>)
    requires SweepDefined(s, e, npts, rotate)
    ensures Swept(gx, gy, s, e, npts, rotate)
  {
    gx := seq(npts + 1, _ => 0.0);
    gy := seq(npts + 1, _ => 0.0);
    for i := 0 to npts + 1
      invariant |gx| == npts + 1 && |gy| == npts + 1
      invariant forall j :: 0 <= j < i ==>
        gx[j] == S.Chart(SweepPoint(s, e, npts, j), rotate).re &&
        gy[j] == S.Chart(SweepPoint(s, e, npts, j), rotate).im
    {
      var pt := S.Chart(SweepPoint(s, e, npts, i), rotate);
      gx := gx[i := pt.re];
      gy := gy[i := pt.im];
    }
  }

  /** The first sample is the chart point of the start, the last that of the end. */
  lemma {:induction false} SweptEnds(gx: seq<real>, gy: seq<real>, s: Complex, e: Complex, npts: nat, rotate: bool)
    requires SweepDefined(s, e, npts, rotate) && Swept(gx, gy, s, e, npts, rotate)
    ensures S.ChartDefined(s, rotate) && gx[0] == S.Chart(s, rotate).re && gy[0] == S.Chart(s, rotate).im
    ensures S.ChartDefined(e, rotate) && gx[npts] == S.Chart(e, rotate).re && gy[npts] == S.Chart(e, rotate).im
  {
    SweepPointEnds(s, e, npts);
    var p0 := SweepPoint(s, e, npts, 0);
    assert S.ChartDefined(p0, rotate);
    assert gx[0] == S.Chart(p0, rotate).re && gy[0] == S.Chart(p0, rotate).im;
    var pn := SweepPoint(s, e, npts, npts);
    assert S.ChartDefined(pn, rotate);
    assert gx[npts] == S.Chart(pn, rotate).re && gy[npts] == S.Chart(pn, rotate).im;
  }

  /** The sweep starts at `s` and ends at `e`. */
  lemma {:induction false} SweepPointEnds(s: Complex, e: Complex, npts: nat)
    requires npts > 0
    ensures SweepPoint(s, e, npts, 0) == s && SweepPoint(s, e, npts, npts) == e
  {
    var n := npts as real;
    S.SweepEnd(s.re, e.re, n);
    S.SweepEnd(s.im, e.im, n);
  }

  /** A shunt element works on admittances: both impedances must be invertible. */
  predicate EndsDefined(o: Orientation, zin: Complex, zn: Complex)
  {
    o == Shunt ==> NonZero(zin) && NonZero(zn)
  }

  /**
   * The sweep of a lumped element: in series it adds its normalised
   * impedance `zn` to `zin`; in shunt it adds its admittance to that of `zin`.
   */
  function Ends(o: Orientation, zin: Complex, zn: Complex): (r: (Complex, Complex))
    requires EndsDefined(o, zin, zn)
    ensures o == Series ==> r.0 == zin && Sub(r.1, r.0) == zn
    ensures o == Shunt ==> Mul(zin, r.0) == ONE && Mul(zn, Sub(r.1, r.0)) == ONE
  {
    match o
    case Series => (zin, Add(zn, zin))
    case Shunt =>
      var y := Inv(zin);
      var yn := Inv(zn);
      assert Sub(Add(yn, y), y) == yn;
      (y, Add(yn, y))
  }

  predicate LumpedArcDefined(o: Orientation, zin: Complex, zn: Complex, npts: nat)
  {
    EndsDefined(o, zin, zn) && SweepDefined(Ends(o, zin, zn).0, Ends(o, zin, zn).1, npts, Rotate(o))
  }

  /**
   * The `calc_arc` of the capacitor, inductor, resistor and RLC: the sweep
   * between the endpoints the orientation picks, plotted with `rotate` set
   * for a shunt element, and those endpoints reported.
   */
  method LumpedArc(o: Orientation, zin: Complex, zn: Complex, npts: nat) returns (a: Arc)
    requires LumpedArcDefined(o, zin, zn, npts)
    ensures (a.start, a.end) == Ends(o, zin, zn)
    ensures Swept(a.gx, a.gy, a.start, a.end, npts, Rotate(o))
  {
    var (start, end) := Ends(o, zin, zn);
    var gx, gy := SweepArc(start, end, Rotate(o), npts);
    a := Arc(gx, gy, start, end);
  }

  /** The chart point of a real impedance is real, in either orientation. */
  lemma {:induction false} ChartOfReal(z: Complex, rotate: bool)
    requires S.ChartDefined(z, rotate) && z.im == 0.0
    ensures S.Chart(z, rotate).im == 0.0
  {
    var w := S.Rotated(z, rotate);
    if rotate {
      Norm2Positive(z);
      assert w == Complex(z.re / Norm2(z), -z.im / Norm2(z));
    }
    assert w.im == 0.0;
    var d := Add(w, ONE);
    Norm2Positive(d);
    assert Inv(d) == Complex(d.re / Norm2(d), -d.im / Norm2(d));
    assert Inv(d).im == 0.0;
  }

  /** A sweep between two real points has every y sample zero. */
  lemma {:induction false} SweptReal(gx: seq<real>, gy: seq<real>, s: Complex, e: Complex, npts: nat, rotate: bool)
    requires SweepDefined(s, e, npts, rotate) && Swept(gx, gy, s, e, npts, rotate)
    requires s.im == 0.0 && e.im == 0.0
    ensures forall i :: 0 <= i < |gy| ==> gy[i] == 0.0
  {
    forall i | 0 <= i < |gy|
      ensures gy[i] == 0.0
    {
      assert SweepPoint(s, e, npts, i).im == 0.0;
      ChartOfReal(SweepPoint(s, e, npts, i), rotate);
    }
  }

  /** The lumped endpoints of a real input and a real element are real. */
  lemma {:induction false} EndsOfReal(o: Orientation, zin: Complex, zn: Complex)
    requires EndsDefined(o, zin, zn) && zin.im == 0.0 && zn.im == 0.0
    ensures Ends(o, zin, zn).0.im == 0.0 && Ends(o, zin, zn).1.im == 0.0
  {
    if o == Shunt {
      Norm2Positive(zin);
      Norm2Positive(zn);
      assert Inv(zin) == Complex(zin.re / Norm2(zin), -zin.im / Norm2(zin));
      assert Inv(zn) == Complex(zn.re / Norm2(zn), -zn.im / Norm2(zn));
    }
  }

  /** `calc_z_norm(g, z0)` undoes the impedance chart: it gives back the normalised impedance of `g`. */
  ghost predicate InvertsChart(calcZNorm: (Complex, real) -> Complex, z0c: real)
  {
    forall z {:trigger S.Chart(z, false)} :: S.ChartDefined(z, false) ==> calcZNorm(S.Chart(z, false), z0c) == z
  }

  lemma UndoChart(calcZNorm: (Complex, real) -> Complex, z0c: real, z: Complex)
    requires InvertsChart(calcZNorm, z0c) && S.ChartDefined(z, false)
    ensures calcZNorm(S.Chart(z, false), z0c) == z
  {
  }
}
