/**
 * `element/capacitor.rs`: a capacitor with a loss resistance.  With the
 * resistance unit `Q` the resistance field holds the quality factor instead.
 */
module Capacitors {
  import opened Numeric
  import opened Units
  import opened Frequencies
  import opened Elements

  /** All fields of a capacitor, for stating what a setter leaves alone. */
  datatype CapacitorFields = CapacitorFields(
    res: real, cap: real, resUnit: Unit, capUnit: Unit,
    resTol: real, capTol: real, orientation: Orientation)

  /** With `wc != 0` and `q != 0`, `1 / (wc q)` is non-zero and `q` times it is `1 / wc`. */
  lemma QualityRatio(wc: real, q: real)
    requires wc != 0.0 && q != 0.0
    ensures 1.0 / (wc * q) != 0.0 && q * (1.0 / (wc * q)) == 1.0 / wc
  {
    MulNonZero(wc, q);
  }

  /**
   * The impedance of a capacitor of susceptance `wc`: the reactance is
   * `-1 / wc`; the resistance is `r0`, or in `Q` mode the one that makes the
   * quality factor `-x / r` equal to `res` (none for a zero quality factor).
   */
  function LossyCapacitor(qMode: bool, res: real, r0: real, wc: real): (z: Complex)
    requires wc != 0.0
    ensures z.im * wc == -1.0
    ensures !qMode ==> z.re == r0
    ensures qMode && res == 0.0 ==> z.re == 0.0
    ensures qMode && res != 0.0 ==> z.re != 0.0 && -z.im == res * z.re
  {
    var re :=
      if qMode then
        if res == 0.0 then 0.0
        else QualityRatio(wc, res); 1.0 / (wc * res)
      else r0;
    Complex(re, -1.0 / wc)
  }

  class Capacitor {
    var res: real
    var cap: real
    var resUnit: Unit
    var capUnit: Unit
    var resTol: real
    var capTol: real
    var orientation: Orientation

    function Fields(): CapacitorFields
      reads this
    {
      CapacitorFields(res, cap, resUnit, capUnit, resTol, capTol, orientation)
    }

    /** `Capacitor::new`: every field as given. */
    constructor(res: real, cap: real, resUnit: Unit, capUnit: Unit, resTol: real, capTol: real, orientation: Orientation)
      ensures Fields() == CapacitorFields(res, cap, resUnit, capUnit, resTol, capTol, orientation)
    {
      this.res := res;
      this.cap := cap;
      this.resUnit := resUnit;
      this.capUnit := capUnit;
      this.resTol := resTol;
      this.capTol := capTol;
      this.orientation := orientation;
    }

    /** `Capacitor::default`: lossless 20 fF in series. */
    constructor Default()
      ensures Fields() == CapacitorFields(0.0, 20.0, Base, Femto, 0.0, 0.0, Series)
    {
      res := 0.0;
      cap := 20.0;
      resUnit := Base;
      capUnit := Femto;
      resTol := 0.0;
      capTol := 0.0;
      orientation := Series;
    }

    function Labels(): seq<string>
    {
      ["res", "cap"]
    }

    /** `vals()` lines up with `labels()`. */
    function Vals(): (r: seq<real>)
      reads this
      ensures |r| == |Labels()| && r[0] == res && r[1] == cap
    {
      [res, cap]
    }

    /** `units()` lines up with `labels()`. */
    function UnitList(): (r: seq<Unit>)
      reads this
      ensures |r| == |Labels()| && r[0] == resUnit && r[1] == capUnit
    {
      [resUnit, capUnit]
    }

    /** `tols()` lines up with `labels()`. */
    function Tols(): (r: seq<real>)
      reads this
      ensures |r| == |Labels()| && r[0] == resTol && r[1] == capTol
    {
      [resTol, capTol]
    }

    method SetRes(v: real)
      modifies this
      ensures Fields() == old(Fields()).(res := v)
    {
      res := v;
    }

    method SetCap(v: real)
      modifies this
      ensures Fields() == old(Fields()).(cap := v)
    {
      cap := v;
    }

    /** `set_res_unscaled(v)`: a base-unit value stored in the current unit. */
    method SetResUnscaled(m: Libm, v: real)
      requires Scalable(m, resUnit)
      modifies this
      ensures Fields() == old(Fields()).(res := ScaleVal(m, v, old(resUnit)))
      ensures UnscaleVal(m, res, resUnit) == v
    {
      ScaleUnscaleInverse(m, v, resUnit);
      res := ScaleVal(m, v, resUnit);
    }

    /** `set_cap_unscaled(v)`: a base-unit value stored in the current unit. */
    method SetCapUnscaled(m: Libm, v: real)
      requires Scalable(m, capUnit)
      modifies this
      ensures Fields() == old(Fields()).(cap := ScaleVal(m, v, old(capUnit)))
      ensures UnscaleVal(m, cap, capUnit) == v
    {
      ScaleUnscaleInverse(m, v, capUnit);
      cap := ScaleVal(m, v, capUnit);
    }

    method SetResUnit(u: Unit)
      modifies this
      ensures Fields() == old(Fields()).(resUnit := u)
    {
      resUnit := u;
    }

    method SetCapUnit(u: Unit)
      modifies this
      ensures Fields() == old(Fields()).(capUnit := u)
    {
      capUnit := u;
    }

    method SetResTol(v: real)
      modifies this
      ensures Fields() == old(Fields()).(resTol := v)
    {
      resTol := v;
    }

    method SetCapTol(v: real)
      modifies this
      ensures Fields() == old(Fields()).(capTol := v)
    {
      capTol := v;
    }

    method SetOrientation(o: Orientation)
      modifies this
      ensures Fields() == old(Fields()).(orientation := o)
    {
      orientation := o;
    }

    /** The units can be converted and `w C` is not zero. */
    predicate ZDefined(m: Libm, freq: Frequency)
      reads this, freq
    {
      Scalable(m, resUnit) && Scalable(m, capUnit) && Scalable(m, freq.unit) &&
      freq.W(m) * UnscaleVal(m, cap, capUnit) != 0.0
    }

    /** `z(f)`: a capacitor with its loss resistance, at the angular frequency of `freq`. */
    function Z(m: Libm, freq: Frequency): Complex
      reads this, freq
      requires ZDefined(m, freq)
    {
      LossyCapacitor(resUnit == Q, res, UnscaleVal(m, res, resUnit), freq.W(m) * UnscaleVal(m, cap, capUnit))
    }

    /**
     * `calc_arc`: `npts + 1` chart samples from `zin_norm` to `zin_norm`
     * plus the normalised impedance in series, or between the admittances
     * in shunt, with the endpoints that were swept reported.
     */
    method CalcArc(m: Libm, freq: Frequency, zinNorm: Complex, z0: real, npts: nat) returns (a: Arc)
      requires ZDefined(m, freq) && z0 != 0.0
      requires LumpedArcDefined(orientation, zinNorm, ZNorm(Z(m, freq), z0), npts)
      ensures (a.start, a.end) == Ends(orientation, zinNorm, ZNorm(Z(m, freq), z0))
      ensures Swept(a.gx, a.gy, a.start, a.end, npts, Rotate(orientation))
    {
      a := LumpedArc(orientation, zinNorm, ZNorm(Z(m, freq), z0), npts);
    }
  }
}
