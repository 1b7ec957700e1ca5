/**
 * `element/inductor.rs`: an inductor with a loss resistance.  With the
 * resistance unit `Q` the resistance field holds the quality factor instead.
 */
module Inductors {
  import opened Numeric
  import opened Units
  import opened Frequencies
  import opened Elements

  /** All fields of an inductor, for stating what a setter leaves alone. */
  datatype InductorFields = InductorFields(
    res: real, ind: real, resUnit: Unit, indUnit: Unit,
    resTol: real, indTol: real, orientation: Orientation)

  /**
   * The impedance of an inductor of reactance `wl`: the reactance is `wl`;
   * the resistance is `r0`, or in `Q` mode the one that makes the quality
   * factor `x / r` equal to `res` (none for a zero quality factor).
   */
  function LossyInductor(qMode: bool, res: real, r0: real, wl: real): (z: Complex)
    ensures z.im == wl
    ensures !qMode ==> z.re == r0
    ensures qMode && res == 0.0 ==> z.re == 0.0
    ensures qMode && res != 0.0 ==> z.im == res * z.re && (wl != 0.0 ==> z.re != 0.0)
  {
    var re :=
      if qMode then
        if res == 0.0 then 0.0 else wl / res
      else r0;
    Complex(re, wl)
  }

  class Inductor {
    var res: real
    var ind: real
    var resUnit: Unit
    var indUnit: Unit
    var resTol: real
    var indTol: real
    var orientation: Orientation

    function Fields(): InductorFields
      reads this
    {
      InductorFields(res, ind, resUnit, indUnit, resTol, indTol, orientation)
    }

    /** `Inductor::new`: every field as given. */
    constructor(res: real, ind: real, resUnit: Unit, indUnit: Unit, resTol: real, indTol: real, orientation: Orientation)
      ensures Fields() == InductorFields(res, ind, resUnit, indUnit, resTol, indTol, orientation)
    {
      this.res := res;
      this.ind := ind;
      this.resUnit := resUnit;
      this.indUnit := indUnit;
      this.resTol := resTol;
      this.indTol := indTol;
      this.orientation := orientation;
    }

    /** `Inductor::default`: lossless 10 pH in series. */
    constructor Default()
      ensures Fields() == InductorFields(0.0, 10.0, Base, Pico, 0.0, 0.0, Series)
    {
      res := 0.0;
      ind := 10.0;
      resUnit := Base;
      indUnit := Pico;
      resTol := 0.0;
      indTol := 0.0;
      orientation := Series;
    }

    function Labels(): seq<string>
    {
      ["res", "ind"]
    }

    /** `vals()` lines up with `labels()`. */
    function Vals(): (r: seq<real>)
      reads this
      ensures |r| == |Labels()| && r[0] == res && r[1] == ind
    {
      [res, ind]
    }

    /** `units()` lines up with `labels()`. */
    function UnitList(): (r: seq<Unit>)
      reads this
      ensures |r| == |Labels()| && r[0] == resUnit && r[1] == indUnit
    {
      [resUnit, indUnit]
    }

    /** `tols()` lines up with `labels()`. */
    function Tols(): (r: seq<real>)
      reads this
      ensures |r| == |Labels()| && r[0] == resTol && r[1] == indTol
    {
      [resTol, indTol]
    }

    method SetRes(v: real)
      modifies this
      ensures Fields() == old(Fields()).(res := v)
    {
      res := v;
    }

    method SetInd(v: real)
      modifies this
      ensures Fields() == old(Fields()).(ind := v)
    {
      ind := v;
    }

    /** `set_res_unscaled(v)`: a base-unit value stored in the current unit. */
    method SetResUnscaled(m: Libm, v: real)
      requires Scalable(m, resUnit)
      modifies this
      ensures Fields() == old(Fields()).(res := ScaleVal(m, v, old(resUnit)))
      ensures UnscaleVal(m, res, resUnit) == v
    {
      ScaleUnscaleInverse(m, v, resUnit);
      res := ScaleVal(m, v, resUnit);
    }

    /** `set_ind_unscaled(v)`: a base-unit value stored in the current unit. */
    method SetIndUnscaled(m: Libm, v: real)
      requires Scalable(m, indUnit)
      modifies this
      ensures Fields() == old(Fields()).(ind := ScaleVal(m, v, old(indUnit)))
      ensures UnscaleVal(m, ind, indUnit) == v
    {
      ScaleUnscaleInverse(m, v, indUnit);
      ind := ScaleVal(m, v, indUnit);
    }

    method SetResUnit(u: Unit)
      modifies this
      ensures Fields() == old(Fields()).(resUnit := u)
    {
      resUnit := u;
    }

    method SetIndUnit(u: Unit)
      modifies this
      ensures Fields() == old(Fields()).(indUnit := u)
    {
      indUnit := u;
    }

    method SetResTol(v: real)
      modifies this
      ensures Fields() == old(Fields()).(resTol := v)
    {
      resTol := v;
    }

    method SetIndTol(v: real)
      modifies this
      ensures Fields() == old(Fields()).(indTol := v)
    {
      indTol := v;
    }

    method SetOrientation(o: Orientation)
      modifies this
      ensures Fields() == old(Fields()).(orientation := o)
    {
      orientation := o;
    }

    /** The units can be converted. */
    predicate ZDefined(m: Libm, freq: Frequency)
      reads this, freq
    {
      Scalable(m, resUnit) && Scalable(m, indUnit) && Scalable(m, freq.unit)
    }

    /** `z(f)`: an inductor with its loss resistance, at the angular frequency of `freq`. */
    function Z(m: Libm, freq: Frequency): Complex
      reads this, freq
      requires ZDefined(m, freq)
    {
      LossyInductor(resUnit == Q, res, UnscaleVal(m, res, resUnit), freq.W(m) * UnscaleVal(m, ind, indUnit))
    }

    /**
     * `calc_arc`: `npts + 1` chart samples from `zin_norm` to `zin_norm`
     * plus the normalised impedance in series, or between the admittances
     * in shunt, with the endpoints that were swept reported.
     */
    method CalcArc(m: Libm, freq: Frequency, zinNorm: Complex, z0: real, npts: nat) returns (a: Arc)
      requires ZDefined(m, freq) && z0 != 0.0
      requires LumpedArcDefined(orientation, zinNorm, ZNorm(Z(m, freq), z0), npts)
      ensures (a.start, a.end) == Ends(orientation, zinNorm, ZNorm(Z(m, freq), z0))
      ensures Swept(a.gx, a.gy, a.start, a.end, npts, Rotate(orientation))
    {
      a := LumpedArc(orientation, zinNorm, ZNorm(Z(m, freq), z0), npts);
    }
  }
}
