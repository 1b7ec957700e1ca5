/**
 * `element/rlc.rs`: a series resistor, inductor and capacitor.  A zero
 * capacitance leaves the capacitor out of the branch.
 */
module Rlcs {
  import opened Numeric
  import opened Units
  import opened Frequencies
  import opened Elements
  import Inductors

  /** All fields of an RLC branch, for stating what a setter leaves alone. */
  datatype RlcFields = RlcFields(
    res: real, ind: real, cap: real, resUnit: Unit, indUnit: Unit, capUnit: Unit,
    resTol: real, indTol: real, capTol: real, orientation: Orientation)

  /**
   * The series branch of resistance `r`, inductive reactance `wl` and
   * capacitive susceptance `wc`: without a capacitor it is an inductor with
   * series resistance `r`; with one, the reactance falls short of `wl` by
   * exactly `1 / wc`.
   */
  function SeriesRlc(r: real, wl: real, noCap: bool, wc: real): (z: Complex)
    requires !noCap ==> wc != 0.0
    ensures z.re == r
    ensures noCap ==> z == Inductors.LossyInductor(false, 0.0, r, wl)
    ensures !noCap ==> (wl - z.im) * wc == 1.0
  {
    if noCap then Complex(r, wl)
    else Complex(r, wl - 1.0 / wc)
  }

  class Rlc {
    var res: real
    var ind: real
    var cap: real
    var resUnit: Unit
    var indUnit: Unit
    var capUnit: Unit
    var resTol: real
    var indTol: real
    var capTol: real
    var orientation: Orientation

    function Fields(): RlcFields
      reads this
    {
      RlcFields(res, ind, cap, resUnit, indUnit, capUnit, resTol, indTol, capTol, orientation)
    }

    /** `Rlc::new`: every field as given. */
    constructor(res: real, ind: real, cap: real, resUnit: Unit, indUnit: Unit, capUnit: Unit,
                resTol: real, indTol: real, capTol: real, orientation: Orientation)
      ensures Fields() == RlcFields(res, ind, cap, resUnit, indUnit, capUnit, resTol, indTol, capTol, orientation)
    {
      this.res := res;
      this.ind := ind;
      this.cap := cap;
      this.resUnit := resUnit;
      this.indUnit := indUnit;
      this.capUnit := capUnit;
      this.resTol := resTol;
      this.indTol := indTol;
      this.capTol := capTol;
      this.orientation := orientation;
    }

    /** `Rlc::default`: 1 ohm, 10 pH and 20 fF, in shunt. */
    constructor Default()
      ensures Fields() == RlcFields(1.0, 10.0, 20.0, Base, Pico, Femto, 0.0, 0.0, 0.0, Shunt)
    {
      res := 1.0;
      ind := 10.0;
      cap := 20.0;
      resUnit := Base;
      indUnit := Pico;
      capUnit := Femto;
      resTol := 0.0;
      indTol := 0.0;
      capTol := 0.0;
      orientation := Shunt;
    }

    function Labels(): seq<string>
    {
      ["res", "ind", "cap"]
    }

    /** `vals()` lines up with `labels()`. */
    function Vals(): (r: seq<real>)
      reads this
      ensures |r| == |Labels()| && r[0] == res && r[1] == ind && r[2] == cap
    {
      [res, ind, cap]
    }

    /** `units()` lines up with `labels()`. */
    function UnitList(): (r: seq<Unit>)
      reads this
      ensures |r| == |Labels()| && r[0] == resUnit && r[1] == indUnit && r[2] == capUnit
    {
      [resUnit, indUnit, capUnit]
    }

    /** `tols()` lines up with `labels()`. */
    function Tols(): (r: seq<real>)
      reads this
      ensures |r| == |Labels()| && r[0] == resTol && r[1] == indTol && r[2] == capTol
    {
      [resTol, indTol, capTol]
    }

    method SetRes(v: real)
      modifies this
      ensures Fields() == old(Fields()).(res := v)
    {
      res := v;
    }

    method SetInd(v: real)
      modifies this
      ensures Fields() == old(Fields()).(ind := v)
    {
      ind := v;
    }

    method SetCap(v: real)
      modifies this
      ensures Fields() == old(Fields()).(cap := v)
    {
      cap := v;
    }

    /** `set_res_unscaled(v)`: a base-unit value stored in the current unit. */
    method SetResUnscaled(m: Libm, v: real)
      requires Scalable(m, resUnit)
      modifies this
      ensures Fields() == old(Fields()).(res := ScaleVal(m, v, old(resUnit)))
      ensures UnscaleVal(m, res, resUnit) == v
    {
      ScaleUnscaleInverse(m, v, resUnit);
      res := ScaleVal(m, v, resUnit);
    }

    /** `set_ind_unscaled(v)`: a base-unit value stored in the current unit. */
    method SetIndUnscaled(m: Libm, v: real)
      requires Scalable(m, indUnit)
      modifies this
      ensures Fields() == old(Fields()).(ind := ScaleVal(m, v, old(indUnit)))
      ensures UnscaleVal(m, ind, indUnit) == v
    {
      ScaleUnscaleInverse(m, v, indUnit);
      ind := ScaleVal(m, v, indUnit);
    }

    /** `set_cap_unscaled(v)`: a base-unit value stored in the current unit. */
    method SetCapUnscaled(m: Libm, v: real)
      requires Scalable(m, capUnit)
      modifies this
      ensures Fields() == old(Fields()).(cap := ScaleVal(m, v, old(capUnit)))
      ensures UnscaleVal(m, cap, capUnit) == v
    {
      ScaleUnscaleInverse(m, v, capUnit);
      cap := ScaleVal(m, v, capUnit);
    }

    method SetResUnit(u: Unit)
      modifies this
      ensures Fields() == old(Fields()).(resUnit := u)
    {
      resUnit := u;
    }

    method SetIndUnit(u: Unit)
      modifies this
      ensures Fields() == old(Fields()).(indUnit := u)
    {
      indUnit := u;
    }

    method SetCapUnit(u: Unit)
      modifies this
      ensures Fields() == old(Fields()).(capUnit := u)
    {
      capUnit := u;
    }

    method SetResTol(v: real)
      modifies this
      ensures Fields() == old(Fields()).(resTol := v)
    {
      resTol := v;
    }

    method SetIndTol(v: real)
      modifies this
      ensures Fields() == old(Fields()).(indTol := v)
    {
      indTol := v;
    }

    method SetCapTol(v: real)
      modifies this
      ensures Fields() == old(Fields()).(capTol := v)
    {
      capTol := v;
    }

    /** The units can be converted and, with a capacitor, `w C` is not zero. */
    predicate ZDefined(m: Libm, freq: Frequency)
      reads this, freq
    {
      Scalable(m, resUnit) && Scalable(m, indUnit) && Scalable(m, capUnit) && Scalable(m, freq.unit) &&
      (cap != 0.0 ==> freq.W(m) * UnscaleVal(m, cap, capUnit) != 0.0)
    }

    /** `z(f)`: the series branch at the angular frequency of `freq`. */
    function Z(m: Libm, freq: Frequency): Complex
      reads this, freq
      requires ZDefined(m, freq)
    {
      SeriesRlc(UnscaleVal(m, res, resUnit), freq.W(m) * UnscaleVal(m, ind, indUnit),
                cap == 0.0, freq.W(m) * UnscaleVal(m, cap, capUnit))
    }

    /** `calc_arc`: the lumped sweep of the branch's normalised impedance. */
    method CalcArc(m: Libm, freq: Frequency, zinNorm: Complex, z0: real, npts: nat) returns (a: Arc)
      requires ZDefined(m, freq) && z0 != 0.0
      requires LumpedArcDefined(orientation, zinNorm, ZNorm(Z(m, freq), z0), npts)
      ensures (a.start, a.end) == Ends(orientation, zinNorm, ZNorm(Z(m, freq), z0))
      ensures Swept(a.gx, a.gy, a.start, a.end, npts, Rotate(orientation))
    {
      a := LumpedArc(orientation, zinNorm, ZNorm(Z(m, freq), z0), npts);
    }
  }
}
