/** `element/resistor.rs`: a resistor, whose impedance does not depend on frequency. */
module Resistors {
  import opened Numeric
  import opened Units
  import opened Frequencies
  import opened Elements

  /** All fields of a resistor, for stating what a setter leaves alone. */
  datatype ResistorFields = ResistorFields(res: real, resUnit: Unit, resTol: real, orientation: Orientation)

  class Resistor {
    var res: real
    var resUnit: Unit
    var resTol: real
    var orientation: Orientation

    function Fields(): ResistorFields
      reads this
    {
      ResistorFields(res, resUnit, resTol, orientation)
    }

    /** `Resistor::new`: every field as given. */
    constructor(res: real, resUnit: Unit, resTol: real, orientation: Orientation)
      ensures Fields() == ResistorFields(res, resUnit, resTol, orientation)
    {
      this.res := res;
      this.resUnit := resUnit;
      this.resTol := resTol;
      this.orientation := orientation;
    }

    /** `Resistor::default`: 1 ohm in series. */
    constructor Default()
      ensures Fields() == ResistorFields(1.0, Base, 0.0, Series)
    {
      res := 1.0;
      resUnit := Base;
      resTol := 0.0;
      orientation := Series;
    }

    function Labels(): seq<string>
    {
      ["res"]
    }

    /** `vals()` lines up with `labels()`. */
    function Vals(): (r: seq<real>)
      reads this
      ensures |r| == |Labels()| && r[0] == res
    {
      [res]
    }

    /** `units()` lines up with `labels()`. */
    function UnitList(): (r: seq<Unit>)
      reads this
      ensures |r| == |Labels()| && r[0] == resUnit
    {
      [resUnit]
    }

    /** `tols()` lines up with `labels()`. */
    function Tols(): (r: seq<real>)
      reads this
      ensures |r| == |Labels()| && r[0] == resTol
    {
      [resTol]
    }

    method SetRes(v: real)
      modifies this
      ensures Fields() == old(Fields()).(res := v)
    {
      res := v;
    }

    /** `set_res_unscaled(v)`: a base-unit value stored in the current unit. */
    method SetResUnscaled(m: Libm, v: real)
      requires Scalable(m, resUnit)
      modifies this
      ensures Fields() == old(Fields()).(res := ScaleVal(m, v, old(resUnit)))
      ensures UnscaleVal(m, res, resUnit) == v
    {
      ScaleUnscaleInverse(m, v, resUnit);
      res := ScaleVal(m, v, resUnit);
    }

    method SetResUnit(u: Unit)
      modifies this
      ensures Fields() == old(Fields()).(resUnit := u)
    {
      resUnit := u;
    }

    method SetResTol(v: real)
      modifies this
      ensures Fields() == old(Fields()).(resTol := v)
    {
      resTol := v;
    }

    method SetOrientation(o: Orientation)
      modifies this
      ensures Fields() == old(Fields()).(orientation := o)
    {
      orientation := o;
    }

    /** `z(f)`: the resistance in ohms, with no reactance, whatever the frequency. */
    function Z(m: Libm, freq: Frequency): (z: Complex)
      reads this
      requires Scalable(m, resUnit)
      ensures z.im == 0.0 && ScaleVal(m, z.re, resUnit) == res
    {
      ScaleUnscaleInverse(m, res, resUnit);
      Real(UnscaleVal(m, res, resUnit))
    }

    /** `calc_arc`: the lumped sweep of the resistor's normalised impedance. */
    method CalcArc(m: Libm, freq: Frequency, zinNorm: Complex, z0: real, npts: nat) returns (a: Arc)
      requires Scalable(m, resUnit) && z0 != 0.0
      requires LumpedArcDefined(orientation, zinNorm, ZNorm(Z(m, freq), z0), npts)
      ensures (a.start, a.end) == Ends(orientation, zinNorm, ZNorm(Z(m, freq), z0))
      ensures Swept(a.gx, a.gy, a.start, a.end, npts, Rotate(orientation))
    {
      a := LumpedArc(orientation, zinNorm, ZNorm(Z(m, freq), z0), npts);
    }
  }

  /** The impedance is the same at every frequency. */
  lemma ZIgnoresFrequency(m: Libm, r: Resistor, f1: Frequency, f2: Frequency)
    requires Scalable(m, r.resUnit)
    ensures r.Z(m, f1) == r.Z(m, f2)
  {
  }

  /** From a real input impedance, a resistor's arc stays on the real axis in either orientation. */
  lemma {:induction false} RealArc(o: Orientation, zinNorm: Complex, zn: Complex, npts: nat, a: Arc)
    requires zinNorm.im == 0.0 && zn.im == 0.0
    requires LumpedArcDefined(o, zinNorm, zn, npts)
    requires (a.start, a.end) == Ends(o, zinNorm, zn) && Swept(a.gx, a.gy, a.start, a.end, npts, Rotate(o))
    ensures forall i :: 0 <= i < |a.gy| ==> a.gy[i] == 0.0
  {
    EndsOfReal(o, zinNorm, zn);
    SweptReal(a.gx, a.gy, a.start, a.end, npts, Rotate(o));
  }

  /** A resistor's normalised impedance is real. */
  lemma ResistorZNormReal(m: Libm, r: Resistor, freq: Frequency, z0: real)
    requires Scalable(m, r.resUnit) && z0 != 0.0
    ensures ZNorm(r.Z(m, freq), z0).im == 0.0
  {
  }
}
