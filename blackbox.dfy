/**
 * `element/blackbox.rs`: a fixed impedance given by its resistance and
 * reactance, with its own reference impedance.  Nothing about it depends on
 * frequency, and it plots as a single point.
 */
module BlackBoxes {
  import opened Numeric
  import opened Units
  import opened Frequencies
  import opened Elements
  import S = Smith

  /** All fields of a black box, for stating what a setter leaves alone. */
  datatype BlackBoxFields = BlackBoxFields(z: Complex, z0: real, tol: real, orientation: Orientation)

  /** What `calc_arc` returns for a black box: one sample and the point it stands for, twice. */
  datatype PointArc = PointArc(gx: seq<real>, gy: seq<real>, start: Complex, end: Complex)

  class BlackBox {
    var z: Complex
    var z0: real
    var tol: real
    var orientation: Orientation

    function Fields(): BlackBoxFields
      reads this
    {
      BlackBoxFields(z, z0, tol, orientation)
    }

    /** `BlackBox::new`: the impedance, reference and tolerance as given, in series. */
    constructor(z: Complex, z0: real, tol: real)
      ensures Fields() == BlackBoxFields(z, z0, tol, Series)
    {
      this.z := z;
      this.z0 := z0;
      this.tol := tol;
      orientation := Series;
    }

    /** `BlackBox::from_ri`: the impedance from its two parts. */
    constructor FromRi(re: real, im: real, z0: real, tol: real)
      ensures Fields() == BlackBoxFields(Complex(re, im), z0, tol, Series)
    {
      z := Complex(re, im);
      this.z0 := z0;
      this.tol := tol;
      orientation := Series;
    }

    /** `BlackBox::default`: 50 ohms on a 50 ohm reference, no tolerance. */
    constructor Default()
      ensures Fields() == BlackBoxFields(Complex(50.0, 0.0), 50.0, 0.0, Series)
    {
      z := Complex(50.0, 0.0);
      z0 := 50.0;
      tol := 0.0;
      orientation := Series;
    }

    function Res(): real
      reads this
    {
      z.re
    }

    function Reac(): real
      reads this
    {
      z.im
    }

    /** `set_res`: a new resistance; the reactance stays. */
    method SetRes(v: real)
      modifies this
      ensures Fields() == old(Fields()).(z := Complex(v, old(z.im)))
      ensures Res() == v && Reac() == old(Reac())
    {
      z := Complex(v, z.im);
    }

    /** `set_reac`: a new reactance; the resistance stays. */
    method SetReac(v: real)
      modifies this
      ensures Fields() == old(Fields()).(z := Complex(old(z.re), v))
      ensures Res() == old(Res()) && Reac() == v
    {
      z := Complex(z.re, v);
    }

    /** `set_z`: both parts replaced. */
    method SetZ(v: Complex)
      modifies this
      ensures Fields() == old(Fields()).(z := v)
    {
      z := v;
    }

    method SetTol(v: real)
      modifies this
      ensures Fields() == old(Fields()).(tol := v)
    {
      tol := v;
    }

    function Labels(): seq<string>
    {
      ["res", "reac"]
    }

    /** `vals()` lines up with `labels()`: resistance, then reactance. */
    function Vals(): (r: seq<real>)
      reads this
      ensures |r| == |Labels()| && r[0] == Res() && r[1] == Reac()
    {
      [Res(), Reac()]
    }

    /** `units()`: both parts in plain ohms. */
    function UnitList(): (r: seq<Unit>)
      reads this
      ensures |r| == |Labels()| && forall i :: 0 <= i < |r| ==> r[i] == Base
    {
      [Base, Base]
    }

    /** `tols()`: one tolerance for the whole impedance, so it is one entry shorter than `labels()`. */
    function Tols(): (r: seq<real>)
      reads this
      ensures |r| == |Labels()| - 1 && r[0] == tol
    {
      [tol]
    }

    /** `z(f)`: the stored impedance, whatever the frequency. */
    function Z(freq: Frequency): (r: Complex)
      reads this
      ensures r.re == Res() && r.im == Reac()
    {
      Complex(Res(), Reac())
    }

    /** `r(f)`: the resistance. */
    function R(freq: Frequency): (r: real)
      reads this
      ensures r == Z(freq).re
    {
      Res()
    }

    /** `x(f)`: the reactance. */
    function X(freq: Frequency): (r: real)
      reads this
      ensures r == Z(freq).im
    {
      Reac()
    }

    predicate ArcDefined(freq: Frequency)
      reads this
    {
      z0 != 0.0 && S.ChartDefined(ZNorm(Z(freq), z0), Rotate(orientation))
    }

    /**
     * `calc_arc`: the chart point of the impedance normalised by the box's
     * own reference, whatever `npts` is, and that point converted back with
     * the caller's reference as both start and end.
     */
    method CalcArc(freq: Frequency, zinNorm: Complex, z0c: real, npts: nat,
                   calcZNorm: (Complex, real) -> Complex) returns (a: PointArc)
      requires ArcDefined(freq)
      ensures |a.gx| == 1 && |a.gy| == 1
      ensures Complex(a.gx[0], a.gy[0]) == S.Chart(ZNorm(Z(freq), z0), Rotate(orientation))
      ensures a.start == a.end
      ensures a.start == calcZNorm(S.Chart(ZNorm(Z(freq), z0), Rotate(orientation)), z0c)
    {
      var pt := S.Chart(ZNorm(Z(freq), z0), Rotate(orientation));
      var pt1 := calcZNorm(pt, z0c);
      a := PointArc([pt.re], [pt.im], pt1, pt1);
    }
  }

  /**
   * With a `calc_z_norm` that undoes the chart, the reported point is the
   * impedance normalised by the box's own reference; when the caller's
   * reference differs, it is not the impedance normalised by the caller's.
   */
  lemma {:induction false} ReportedPointUsesOwnReference(b: BlackBox, freq: Frequency, z0c: real,
                                                          calcZNorm: (Complex, real) -> Complex)
    requires b.ArcDefined(freq) && b.orientation == Series && InvertsChart(calcZNorm, z0c)
    ensures calcZNorm(S.Chart(ZNorm(b.Z(freq), b.z0), Rotate(b.orientation)), z0c) == ZNorm(b.z, b.z0)
    ensures z0c != 0.0 && z0c != b.z0 && NonZero(b.z) ==>
      calcZNorm(S.Chart(ZNorm(b.Z(freq), b.z0), Rotate(b.orientation)), z0c) != ZNorm(b.z, z0c)
  {
    assert Rotate(b.orientation) == false;
    UndoChart(calcZNorm, z0c, ZNorm(b.Z(freq), b.z0));
    if z0c != 0.0 && z0c != b.z0 && NonZero(b.z) {
      OtherReferenceDiffers(b.z, b.z0, z0c);
    }
  }

  /** Normalising a non-zero impedance by two different references gives two different points. */
  lemma {:induction false} OtherReferenceDiffers(z: Complex, r1: real, r2: real)
    requires r1 != 0.0 && r2 != 0.0 && r1 != r2 && NonZero(z)
    ensures ZNorm(z, r1) != ZNorm(z, r2)
  {
    if z.re != 0.0 {
      assert ZNorm(z, r1).re * r1 == ZNorm(z, r2).re * r2;
    } else {
      assert ZNorm(z, r1).im * r1 == ZNorm(z, r2).im * r2;
    }
  }
}
