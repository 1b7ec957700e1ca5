/**
 * `element/transformer.rs`: a transformer of primary inductance `indp`,
 * secondary inductance `inds` and mutual coupling `m`, drawn as a tee of
 * three legs.  With the unit `N` the secondary field is a turns ratio, with
 * `K` the coupling field is a coupling coefficient, and with `Q` the
 * resistance field is the quality factor of each winding.
 */
module Transformers {
  import opened Numeric
  import opened Units
  import opened Frequencies
  import opened Elements

  /** All fields of a transformer, for stating what a setter leaves alone. */
  datatype TransformerFields = TransformerFields(
    res: real, indp: real, inds: real, m: real,
    resUnit: Unit, indpUnit: Unit, indsUnit: Unit, mUnit: Unit,
    resTol: real, indpTol: real, indsTol: real, mTol: real, orientation: Orientation)

  /** The legs of a tee: the primary and secondary series legs and the shunt leg between them. */
  datatype Legs = Legs(p: Complex, m: Complex, s: Complex)

  /** The primary side, in parallel with the shunt leg, can be inverted. */
  predicate TeeDefined(zin: Complex, l: Legs)
  {
    NonZero(Add(zin, l.p)) && NonZero(l.m) && NonZero(Add(Inv(Add(zin, l.p)), Inv(l.m)))
  }

  /**
   * The impedance through a tee loaded by `zin`: `zin` in series with the
   * primary leg, that in parallel with the shunt leg, then the secondary leg
   * in series.
   */
  function Cascade(zin: Complex, l: Legs): (z: Complex)
    requires TeeDefined(zin, l)
    ensures NonZero(Sub(z, l.s)) && Inv(Sub(z, l.s)) == Add(Inv(Add(zin, l.p)), Inv(l.m))
  {
    var y := Add(Inv(Add(zin, l.p)), Inv(l.m));
    InvInv(y);
    var z := Add(Inv(y), l.s);
    assert Sub(z, l.s) == Inv(y);
    z
  }

  /** The tee legs at angular frequency `w` from the leg resistances and inductances. */
  function TeeLegs(w: real, rp: real, rs: real, lpTee: real, mTee: real, lsTee: real): Legs
  {
    Legs(Complex(rp, w * lpTee), Complex(0.0, w * mTee), Complex(rs, w * lsTee))
  }

  /** A winding's series resistance: `w L / q` for a quality factor `q`, else `r0`. */
  function WindingRes(qMode: bool, q: real, r0: real, w: real, l: real): (r: real)
    requires qMode ==> q != 0.0
    ensures qMode ==> r * q == w * l
    ensures !qMode ==> r == r0
  {
    if qMode then DivMul(w * l, q); w * l / q else r0
  }

  /**
   * The legs `z_tee` builds for windings `lp` and `ls` and mutual inductance
   * `mm` at angular frequency `w`: with a coupling coefficient the series
   * legs carry `lp - mm` and `ls - mm`, so each winding is its series leg
   * plus the shunt leg; otherwise they carry `lp` and `ls`.  In `Q` mode
   * each series leg's resistance gives its winding the quality factor `q`.
   */
  function TeeOf(w: real, lp: real, ls: real, kMode: bool, mm: real, qMode: bool, q: real, r0: real): (l: Legs)
    requires qMode ==> q != 0.0
    ensures l.m == Complex(0.0, w * mm)
    ensures kMode ==> l.p.im + l.m.im == w * lp && l.s.im + l.m.im == w * ls
    ensures !kMode ==> l.p.im == w * lp && l.s.im == w * ls
    ensures qMode ==> l.p.re * q == w * lp && l.s.re * q == w * ls
    ensures !qMode ==> l.p.re == r0 && l.s.re == r0
  {
    var rp := WindingRes(qMode, q, r0, w, lp);
    var rs := WindingRes(qMode, q, r0, w, ls);
    if kMode then
      SplitLeg(w, lp, mm);
      SplitLeg(w, ls, mm);
      TeeLegs(w, rp, rs, lp - mm, mm, ls - mm)
    else
      TeeLegs(w, rp, rs, lp, mm, ls)
  }

  /**
   * The legs `z()` builds from the same quantities, with the quality factor
   * read through `unscale`: the series legs carry no inductance unless the
   * coupling is a coefficient.
   */
  function WrittenLegs(w: real, lp: real, ls: real, kMode: bool, mm: real, qMode: bool, r0: real): Legs
    requires qMode ==> r0 != 0.0
  {
    var rp := WindingRes(qMode, r0, r0, w, lp);
    var rs := WindingRes(qMode, r0, r0, w, ls);
    if kMode then TeeLegs(w, rp, rs, lp - mm, mm, ls - mm) else TeeLegs(w, rp, rs, 0.0, mm, 0.0)
  }

  /** With a coupling coefficient the two constructions agree. */
  lemma KModeAgree(w: real, lp: real, ls: real, mm: real, qMode: bool, r0: real)
    requires qMode ==> r0 != 0.0
    ensures WrittenLegs(w, lp, ls, true, mm, qMode, r0) == TeeOf(w, lp, ls, true, mm, qMode, r0, r0)
  {
  }

  /** Without one, `z()` leaves a non-zero primary reactance out of the primary leg. */
  lemma OtherModesDisagree(w: real, lp: real, ls: real, mm: real, qMode: bool, r0: real)
    requires qMode ==> r0 != 0.0
    requires w * lp != 0.0
    ensures WrittenLegs(w, lp, ls, false, mm, qMode, r0).p != TeeOf(w, lp, ls, false, mm, qMode, r0, r0).p
  {
  }

  /** Splitting an inductance `l` into legs `l - mm` and `mm` keeps their reactances' sum. */
  lemma SplitLeg(w: real, l: real, mm: real)
    ensures w * (l - mm) + w * mm == w * l
  {
  }

  class Transformer {
    var res: real
    var indp: real
    var inds: real
    var m: real
    var resUnit: Unit
    var indpUnit: Unit
    var indsUnit: Unit
    var mUnit: Unit
    var resTol: real
    var indpTol: real
    var indsTol: real
    var mTol: real
    var orientation: Orientation

    function Fields(): TransformerFields
      reads this
    {
      TransformerFields(res, indp, inds, m, resUnit, indpUnit, indsUnit, mUnit,
                        resTol, indpTol, indsTol, mTol, orientation)
    }

    /** `Transformer::new`: the values, units and tolerances as given, always in series. */
    constructor(res: real, indp: real, inds: real, m: real,
                resUnit: Unit, indpUnit: Unit, indsUnit: Unit, mUnit: Unit,
                resTol: real, indpTol: real, indsTol: real, mTol: real)
      ensures Fields() == TransformerFields(res, indp, inds, m, resUnit, indpUnit, indsUnit, mUnit,
                                            resTol, indpTol, indsTol, mTol, Series)
    {
      this.res := res;
      this.indp := indp;
      this.inds := inds;
      this.m := m;
      this.resUnit := resUnit;
      this.indpUnit := indpUnit;
      this.indsUnit := indsUnit;
      this.mUnit := mUnit;
      this.resTol := resTol;
      this.indpTol := indpTol;
      this.indsTol := indsTol;
      this.mTol := mTol;
      this.orientation := Series;
    }

    /** `Transformer::default`: lossless 20 pH windings with coupling coefficient 0.5. */
    constructor Default()
      ensures Fields() == TransformerFields(0.0, 20.0, 20.0, 0.5, Base, Pico, Pico, K,
                                            0.0, 0.0, 0.0, 0.0, Series)
    {
      res := 0.0;
      indp := 20.0;
      inds := 20.0;
      m := 0.5;
      resUnit := Base;
      indpUnit := Pico;
      indsUnit := Pico;
      mUnit := K;
      resTol := 0.0;
      indpTol := 0.0;
      indsTol := 0.0;
      mTol := 0.0;
      orientation := Series;
    }

    function Labels(): seq<string>
    {
      ["res", "indp", "inds", "m"]
    }

    /** `vals()` lines up with `labels()`. */
    function Vals(): (r: seq<real>)
      reads this
      ensures |r| == |Labels()| && r[0] == res && r[1] == indp && r[2] == inds && r[3] == m
    {
      [res, indp, inds, m]
    }

    /** `units()` lines up with `labels()`. */
    function UnitList(): (r: seq<Unit>)
      reads this
      ensures |r| == |Labels()| && r[0] == resUnit && r[1] == indpUnit && r[2] == indsUnit && r[3] == mUnit
    {
      [resUnit, indpUnit, indsUnit, mUnit]
    }

    /** `tols()` lines up with `labels()`. */
    function Tols(): (r: seq<real>)
      reads this
      ensures |r| == |Labels()| && r[0] == resTol && r[1] == indpTol && r[2] == indsTol && r[3] == mTol
    {
      [resTol, indpTol, indsTol, mTol]
    }

    method SetRes(v: real)
      modifies this
      ensures Fields() == old(Fields()).(res := v)
    {
      res := v;
    }

    method SetIndp(v: real)
      modifies this
      ensures Fields() == old(Fields()).(indp := v)
    {
      indp := v;
    }

    method SetInds(v: real)
      modifies this
      ensures Fields() == old(Fields()).(inds := v)
    {
      inds := v;
    }

    method SetM(v: real)
      modifies this
      ensures Fields() == old(Fields()).(m := v)
    {
      m := v;
    }

    /** `set_res_unscaled(v)`: a base-unit value stored in the current unit. */
    method SetResUnscaled(lib: Libm, v: real)
      requires Scalable(lib, resUnit)
      modifies this
      ensures Fields() == old(Fields()).(res := ScaleVal(lib, v, old(resUnit)))
      ensures UnscaleVal(lib, res, resUnit) == v
    {
      ScaleUnscaleInverse(lib, v, resUnit);
      res := ScaleVal(lib, v, resUnit);
    }

    /** `set_indp_unscaled(v)`: a base-unit value stored in the current unit. */
    method SetIndpUnscaled(lib: Libm, v: real)
      requires Scalable(lib, indpUnit)
      modifies this
      ensures Fields() == old(Fields()).(indp := ScaleVal(lib, v, old(indpUnit)))
      ensures UnscaleVal(lib, indp, indpUnit) == v
    {
      ScaleUnscaleInverse(lib, v, indpUnit);
      indp := ScaleVal(lib, v, indpUnit);
    }

    /** `set_inds_unscaled(v)`: a base-unit value stored in the current unit. */
    method SetIndsUnscaled(lib: Libm, v: real)
      requires Scalable(lib, indsUnit)
      modifies this
      ensures Fields() == old(Fields()).(inds := ScaleVal(lib, v, old(indsUnit)))
      ensures UnscaleVal(lib, inds, indsUnit) == v
    {
      ScaleUnscaleInverse(lib, v, indsUnit);
      inds := ScaleVal(lib, v, indsUnit);
    }

    /** `set_m_unscaled(v)`: a base-unit value stored in the current unit. */
    method SetMUnscaled(lib: Libm, v: real)
      requires Scalable(lib, mUnit)
      modifies this
      ensures Fields() == old(Fields()).(m := ScaleVal(lib, v, old(mUnit)))
      ensures UnscaleVal(lib, m, mUnit) == v
    {
      ScaleUnscaleInverse(lib, v, mUnit);
      m := ScaleVal(lib, v, mUnit);
    }

    method SetResUnit(u: Unit)
      modifies this
      ensures Fields() == old(Fields()).(resUnit := u)
    {
      resUnit := u;
    }

    method SetIndpUnit(u: Unit)
      modifies this
      ensures Fields() == old(Fields()).(indpUnit := u)
    {
      indpUnit := u;
    }

    method SetIndsUnit(u: Unit)
      modifies this
      ensures Fields() == old(Fields()).(indsUnit := u)
    {
      indsUnit := u;
    }

    method SetMUnit(u: Unit)
      modifies this
      ensures Fields() == old(Fields()).(mUnit := u)
    {
      mUnit := u;
    }

    method SetResTol(v: real)
      modifies this
      ensures Fields() == old(Fields()).(resTol := v)
    {
      resTol := v;
    }

    method SetIndpTol(v: real)
      modifies this
      ensures Fields() == old(Fields()).(indpTol := v)
    {
      indpTol := v;
    }

    method SetIndsTol(v: real)
      modifies this
      ensures Fields() == old(Fields()).(indsTol := v)
    {
      indsTol := v;
    }

    method SetMTol(v: real)
      modifies this
      ensures Fields() == old(Fields()).(mTol := v)
    {
      mTol := v;
    }

    /** Every unit can be converted, and a quality factor is not zero. */
    predicate LegsDefined(lib: Libm, freq: Frequency)
      reads this, freq
    {
      Scalable(lib, resUnit) && Scalable(lib, indpUnit) && Scalable(lib, indsUnit) &&
      Scalable(lib, mUnit) && Scalable(lib, freq.unit) &&
      (resUnit == Q ==> res != 0.0)
    }

    /** The primary inductance in henries. */
    function Lp(lib: Libm): real
      reads this
      requires Scalable(lib, indpUnit)
    {
      UnscaleVal(lib, indp, indpUnit)
    }

    /** The secondary inductance in henries: `inds^2 Lp` when `inds` is a turns ratio. */
    function Ls(lib: Libm): (r: real)
      reads this
      requires Scalable(lib, indpUnit) && Scalable(lib, indsUnit)
      ensures indsUnit == N ==> r == inds * inds * Lp(lib)
      ensures indsUnit != N ==> ScaleVal(lib, r, indsUnit) == inds
    {
      ScaleUnscaleInverse(lib, inds, indsUnit);
      if indsUnit == N then inds * inds * Lp(lib) else UnscaleVal(lib, inds, indsUnit)
    }

    /** The mutual inductance in henries: `k sqrt(Lp Ls)` for a coupling coefficient `k`. */
    function Mutual(lib: Libm): real
      reads this
      requires Scalable(lib, indpUnit) && Scalable(lib, indsUnit) && Scalable(lib, mUnit)
    {
      if mUnit == K then m * lib.sqrt(Lp(lib) * Ls(lib)) else UnscaleVal(lib, m, mUnit)
    }

    /** `z_tee(f)`: the legs of `TeeOf` for this transformer at `freq`. */
    function ZTee(lib: Libm, freq: Frequency): Legs
      reads this, freq
      requires LegsDefined(lib, freq)
    {
      TeeOf(freq.W(lib), Lp(lib), Ls(lib), mUnit == K, Mutual(lib), resUnit == Q, res, UnscaleVal(lib, res, resUnit))
    }

    /** `z_cascade(f, zin)`: the impedance through the tee loaded by `zin`. */
    function ZCascade(lib: Libm, freq: Frequency, zin: Complex): Complex
      reads this, freq
      requires LegsDefined(lib, freq) && TeeDefined(zin, ZTee(lib, freq))
    {
      Cascade(zin, ZTee(lib, freq))
    }

    /** `z_cascade_norm(f, zn, z0)`: the same on impedances normalised by `z0`. */
    function ZCascadeNorm(lib: Libm, freq: Frequency, zinNorm: Complex, z0: real): (r: Complex)
      reads this, freq
      requires LegsDefined(lib, freq) && z0 != 0.0 && TeeDefined(Scale(zinNorm, z0), ZTee(lib, freq))
      ensures Scale(r, z0) == ZCascade(lib, freq, Scale(zinNorm, z0))
    {
      ZNorm(ZCascade(lib, freq, Scale(zinNorm, z0)), z0)
    }

    /** The legs `z()` builds: those of `WrittenLegs` for this transformer at `freq`. */
    function ZLegs(lib: Libm, freq: Frequency): Legs
      reads this, freq
      requires LegsDefined(lib, freq)
    {
      PseudoUnitsAreOne(lib, Q);
      WrittenLegs(freq.W(lib), Lp(lib), Ls(lib), mUnit == K, Mutual(lib), resUnit == Q, UnscaleVal(lib, res, resUnit))
    }

    /**
     * `z(f)`: the tee of `ZLegs` with nothing on the primary side, which with
     * a coupling coefficient is `z_cascade(f, 0)`.
     */
    function Z(lib: Libm, freq: Frequency): (z: Complex)
      reads this, freq
      requires LegsDefined(lib, freq) && TeeDefined(ZERO, ZLegs(lib, freq))
      ensures mUnit == K ==> TeeDefined(ZERO, ZTee(lib, freq)) && z == ZCascade(lib, freq, ZERO)
    {
      if mUnit == K then KModeLegs(lib, freq); Cascade(ZERO, ZLegs(lib, freq))
      else Cascade(ZERO, ZLegs(lib, freq))
    }

    /** With a coupling coefficient, `z()` and `z_tee` build the same legs. */
    lemma {:induction false} KModeLegs(lib: Libm, freq: Frequency)
      requires LegsDefined(lib, freq) && mUnit == K
      ensures ZLegs(lib, freq) == ZTee(lib, freq)
    {
      PseudoUnitsAreOne(lib, Q);
      assert resUnit == Q ==> UnscaleVal(lib, res, resUnit) == res;
      KModeAgree(freq.W(lib), Lp(lib), Ls(lib), Mutual(lib), resUnit == Q, UnscaleVal(lib, res, resUnit));
    }

    /**
     * Without a coupling coefficient, `z()` leaves the primary inductance
     * out of the primary leg, which `z_tee` keeps.
     */
    lemma {:induction false} OtherModesDiffer(lib: Libm, freq: Frequency)
      requires LegsDefined(lib, freq) && mUnit != K && freq.W(lib) * Lp(lib) != 0.0
      ensures ZLegs(lib, freq).p != ZTee(lib, freq).p
    {
      PseudoUnitsAreOne(lib, Q);
      assert resUnit == Q ==> UnscaleVal(lib, res, resUnit) == res;
      OtherModesDisagree(freq.W(lib), Lp(lib), Ls(lib), Mutual(lib), resUnit == Q, UnscaleVal(lib, res, resUnit));
    }

    /**
     * `calc_arc`: ignores the orientation, sweeps without rotation from
     * `zin_norm` to `z_cascade_norm(f, zin_norm, z0)`, and reports both.
     */
    method CalcArc(lib: Libm, freq: Frequency, zinNorm: Complex, z0: real, npts: nat) returns (a: Arc)
      requires LegsDefined(lib, freq) && z0 != 0.0 && TeeDefined(Scale(zinNorm, z0), ZTee(lib, freq))
      requires SweepDefined(zinNorm, ZCascadeNorm(lib, freq, zinNorm, z0), npts, false)
      ensures a.start == zinNorm && a.end == ZCascadeNorm(lib, freq, zinNorm, z0)
      ensures Swept(a.gx, a.gy, a.start, a.end, npts, false)
    {
      var start := zinNorm;
      var end := ZCascadeNorm(lib, freq, zinNorm, z0);
      var gx, gy := SweepArc(start, end, false, npts);
      a := Arc(gx, gy, start, end);
    }
  }
}
