/**
 * `matching/hp.rs`: the two-section high-pass network, two shunt inductors
 * and two series capacitors.  `calc_hp1` starts from the source's parallel
 * resistance and `calc_hp2` from the load's; each is the other with the
 * ports swapped.
 */
module HighPass {
  import opened Numeric
  import opened Units
  import opened Networks
  import opened Ells
  import opened TwoSections

  /**
   * `calc_hp1`: the source-side inductor absorbs the source reactance and
   * the load-side capacitor the load reactance; a part equal to the one it
   * absorbs becomes +inf.
   */
  function Hp1(m: Libm, zs: Complex, zl: Complex, w: real, cu: Unit, lu: Unit): (r: CCLL)
    requires Passive(zs, zl, w) && SqrtLaw(m) && Scalable(m, cu) && Scalable(m, lu)
    ensures Labelled(r.cScale, r.lScale, cu, lu)
    ensures HpParallelR(zs) <= zl.re ==> r == CcllNone(cu, lu)
    ensures AllOrNoneNaN4(r.cs, r.cl, r.ls, r.ll)
    ensures !AnyNegative4(r.cs, r.cl, r.ls, r.ll)
  {
    var rp := HpParallelR(zs);
    var rv := Rv(m, rp, zl.re);
    if rp <= rv then CcllNone(cu, lu)
    else
      var qs := SectionQ(m, rp, rv);
      var ql := SectionQ(m, rv, zl.re);
      SeriesCPositive(qs, w, rv);
      SeriesCAbsorbedNotNaN(ql, w, zl.re, zl.im);
      ShuntLFinite(rv, w, ql);
      CcllFiltered(ScaleValue(m, HpSeriesC(qs, w, rv), cu),
                   ScaleValue(m, HpSeriesCAbsorbed(ql, w, zl.re, zl.im), cu),
                   ScaleValue(m, ShuntLAbsorbed(rp, w, qs, SeriesQ(zs), zs.im), lu),
                   ScaleValue(m, HpShuntL(rv, w, ql), lu), cu, lu)
  }

  method CalcHp1(m: Libm, zs: Complex, zl: Complex, w: real, cu: Unit, lu: Unit) returns (r: CCLL)
    requires Passive(zs, zl, w) && SqrtLaw(m) && Scalable(m, cu) && Scalable(m, lu)
    ensures r == Hp1(m, zs, zl, w, cu, lu)
  {
    var cs: Value;
    var cl: Value;
    var ls: Value;
    var ll: Value;
    var q := SeriesQ(zs);
    var rp := HpParallelR(zs);
    var rv := Rv(m, rp, zl.re);
    if rp <= rv {
      cs, cl, ls, ll := NaN, NaN, NaN, NaN;
      r := CCLL(cs, cl, ls, ll, GetUnit(cu, Farad), GetUnit(lu, Henry));
    } else {
      var qs := SectionQ(m, rp, rv);
      var ql := SectionQ(m, rv, zl.re);
      cs := HpSeriesC(qs, w, rv);
      ls := ShuntLAbsorbed(rp, w, qs, q, zs.im);
      ll := HpShuntL(rv, w, ql);
      cl := HpSeriesCAbsorbed(ql, w, zl.re, zl.im);
      cs := ScaleValue(m, cs, cu);
      cl := ScaleValue(m, cl, cu);
      ls := ScaleValue(m, ls, lu);
      ll := ScaleValue(m, ll, lu);
      assert Hp1(m, zs, zl, w, cu, lu) == CcllFiltered(cs, cl, ls, ll, cu, lu);
      r := VoidNegative4(cs, cl, ls, ll, cu, lu);
    }
  }

  /** `calc_hp2`: the same network built from the load's parallel resistance. */
  function Hp2(m: Libm, zs: Complex, zl: Complex, w: real, cu: Unit, lu: Unit): (r: CCLL)
    requires Passive(zs, zl, w) && SqrtLaw(m) && Scalable(m, cu) && Scalable(m, lu)
    ensures Labelled(r.cScale, r.lScale, cu, lu)
    ensures HpParallelR(zl) <= zs.re ==> r == CcllNone(cu, lu)
    ensures AllOrNoneNaN4(r.cs, r.cl, r.ls, r.ll)
    ensures !AnyNegative4(r.cs, r.cl, r.ls, r.ll)
  {
    var rp := HpParallelR(zl);
    var rv := Rv(m, rp, zs.re);
    if rp <= rv then CcllNone(cu, lu)
    else
      var qs := SectionQ(m, rp, rv);
      var ql := SectionQ(m, rv, zs.re);
      SeriesCPositive(qs, w, rv);
      SeriesCAbsorbedNotNaN(ql, w, zs.re, zs.im);
      ShuntLFinite(rv, w, ql);
      CcllFiltered(ScaleValue(m, HpSeriesC(qs, w, rv), cu),
                   ScaleValue(m, HpSeriesCAbsorbed(ql, w, zs.re, zs.im), cu),
                   ScaleValue(m, ShuntLAbsorbed(rp, w, qs, SeriesQ(zl), zl.im), lu),
                   ScaleValue(m, HpShuntL(rv, w, ql), lu), cu, lu)
  }

  method CalcHp2(m: Libm, zs: Complex, zl: Complex, w: real, cu: Unit, lu: Unit) returns (r: CCLL)
    requires Passive(zs, zl, w) && SqrtLaw(m) && Scalable(m, cu) && Scalable(m, lu)
    ensures r == Hp2(m, zs, zl, w, cu, lu)
  {
    var cs: Value;
    var cl: Value;
    var ls: Value;
    var ll: Value;
    var q := SeriesQ(zl);
    var rp := HpParallelR(zl);
    var rv := Rv(m, rp, zs.re);
    if rp <= rv {
      cs, cl, ls, ll := NaN, NaN, NaN, NaN;
      r := CCLL(cs, cl, ls, ll, GetUnit(cu, Farad), GetUnit(lu, Henry));
    } else {
      var qs := SectionQ(m, rp, rv);
      var ql := SectionQ(m, rv, zs.re);
      cs := HpSeriesC(qs, w, rv);
      ls := ShuntLAbsorbed(rp, w, qs, q, zl.im);
      ll := HpShuntL(rv, w, ql);
      cl := HpSeriesCAbsorbed(ql, w, zs.re, zs.im);
      cs := ScaleValue(m, cs, cu);
      cl := ScaleValue(m, cl, cu);
      ls := ScaleValue(m, ls, lu);
      ll := ScaleValue(m, ll, lu);
      assert Hp2(m, zs, zl, w, cu, lu) == CcllFiltered(cs, cl, ls, ll, cu, lu);
      r := VoidNegative4(cs, cl, ls, ll, cu, lu);
    }
  }

  /** `calc_hp2` is `calc_hp1` with the ports swapped, field by field. */
  lemma {:induction false} HpPortSwap(m: Libm, zs: Complex, zl: Complex, w: real, cu: Unit, lu: Unit)
    requires Passive(zs, zl, w) && SqrtLaw(m) && Scalable(m, cu) && Scalable(m, lu)
    ensures Hp2(m, zs, zl, w, cu, lu) == Hp1(m, zl, zs, w, cu, lu)
  {
  }

  /**
   * When the source's Q equals the source-side section's Q, the inductor
   * and the source's own parallel inductance coincide: the absorbed
   * inductor is +inf, unless another part voids the result.
   */
  lemma {:induction false} Hp1CoincidentShunt(m: Libm, zs: Complex, zl: Complex, w: real, cu: Unit, lu: Unit)
    requires Passive(zs, zl, w) && SqrtLaw(m) && Scalable(m, cu) && Scalable(m, lu) && !lu.Lambda?
    requires zs.im != 0.0 && HpParallelR(zs) > zl.re
    requires SeriesQ(zs) == SectionQ(m, HpParallelR(zs), Rv(m, HpParallelR(zs), zl.re))
    ensures Hp1(m, zs, zl, w, cu, lu).ls == PosInf || Hp1(m, zs, zl, w, cu, lu) == CcllNone(cu, lu)
  {
  }

  /**
   * When the load-side section's Q is the load's `-x / r`, the capacitor and
   * the load's own `-1 / (w x)` coincide: the absorbed capacitor is +inf,
   * unless another part voids the result.
   */
  lemma {:induction false} Hp1CoincidentSeries(m: Libm, zs: Complex, zl: Complex, w: real, cu: Unit, lu: Unit)
    requires Passive(zs, zl, w) && SqrtLaw(m) && Scalable(m, cu) && Scalable(m, lu) && !cu.Lambda?
    requires zl.im != 0.0 && HpParallelR(zs) > zl.re
    requires var rp := HpParallelR(zs); SectionQ(m, Rv(m, rp, zl.re), zl.re) == -zl.im / zl.re
    ensures Hp1(m, zs, zl, w, cu, lu).cl == PosInf || Hp1(m, zs, zl, w, cu, lu) == CcllNone(cu, lu)
  {
    var rp := HpParallelR(zs);
    SeriesCCoincides(SectionQ(m, Rv(m, rp, zl.re), zl.re), w, zl.re, zl.im);
  }
}
