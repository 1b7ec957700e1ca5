/**
 * `matching/bp.rs`: the four two-section band-pass networks, each a
 * high-pass section and a low-pass section.  `calc_bp1` and `calc_bp3`
 * start from the source's parallel resistance, `calc_bp2` and `calc_bp4`
 * from the load's; the high-pass section is at the source in the first
 * pair and at the load in the second.
 */
module BandPass {
  import opened Numeric
  import opened Units
  import opened Networks
  import opened Ells
  import opened TwoSections

  /** `calc_bp1`: a high-pass section at the source, whose inductor absorbs the source reactance, then a low-pass section. */
  function Bp1(m: Libm, zs: Complex, zl: Complex, w: real, cu: Unit, lu: Unit): (r: CCLL)
    requires Passive(zs, zl, w) && SqrtLaw(m) && Scalable(m, cu) && Scalable(m, lu)
    ensures Labelled(r.cScale, r.lScale, cu, lu)
    ensures HpParallelR(zs) <= zl.re ==> r == CcllNone(cu, lu)
    ensures AllOrNoneNaN4(r.cs, r.cl, r.ls, r.ll)
    ensures !AnyNegative4(r.cs, r.cl, r.ls, r.ll)
  {
    var q := SeriesQ(zs);
    var rp := HpParallelR(zs);
    var rv := Rv(m, rp, zl.re);
    if rp <= rv then CcllNone(cu, lu)
    else
      var qs := SectionQ(m, rp, rv);
      var ql := SectionQ(m, rv, zl.re);
      SeriesCPositive(qs, w, rv);
      CcllFiltered(ScaleValue(m, HpSeriesC(qs, w, rv), cu),
                   ScaleValue(m, Num(ShuntCOfQ(ql, rv, w)), cu),
                   ScaleValue(m, ShuntLAbsorbed(rp, w, qs, q, zs.im), lu),
                   ScaleValue(m, Num(LpSeriesL(ql, zl.re, zl.im, w)), lu), cu, lu)
  }

  method CalcBp1(m: Libm, zs: Complex, zl: Complex, w: real, cu: Unit, lu: Unit) returns (r: CCLL)
    requires Passive(zs, zl, w) && SqrtLaw(m) && Scalable(m, cu) && Scalable(m, lu)
    ensures r == Bp1(m, zs, zl, w, cu, lu)
  {
    var cs: Value;
    var cl: Value;
    var ls: Value;
    var ll: Value;
    var q := SeriesQ(zs);
    var rp := HpParallelR(zs);
    var rv := Rv(m, rp, zl.re);
    if rp <= rv {
      cs, cl, ls, ll := NaN, NaN, NaN, NaN;
      r := CCLL(cs, cl, ls, ll, GetUnit(cu, Farad), GetUnit(lu, Henry));
    } else {
      var qs := SectionQ(m, rp, rv);
      var ql := SectionQ(m, rv, zl.re);
      cs := HpSeriesC(qs, w, rv);
      ls := ShuntLAbsorbed(rp, w, qs, q, zs.im);
      ll := Num(LpSeriesL(ql, zl.re, zl.im, w));
      cl := Num(ShuntCOfQ(ql, rv, w));
      cs := ScaleValue(m, cs, cu);
      cl := ScaleValue(m, cl, cu);
      ls := ScaleValue(m, ls, lu);
      ll := ScaleValue(m, ll, lu);
      assert Bp1(m, zs, zl, w, cu, lu) == CcllFiltered(cs, cl, ls, ll, cu, lu);
      r := VoidNegative4(cs, cl, ls, ll, cu, lu);
    }
  }

  /** `calc_bp2`: `calc_bp1` built from the load's parallel resistance. */
  function Bp2(m: Libm, zs: Complex, zl: Complex, w: real, cu: Unit, lu: Unit): (r: CCLL)
    requires Passive(zs, zl, w) && SqrtLaw(m) && Scalable(m, cu) && Scalable(m, lu)
    ensures Labelled(r.cScale, r.lScale, cu, lu)
    ensures HpParallelR(zl) <= zs.re ==> r == CcllNone(cu, lu)
    ensures AllOrNoneNaN4(r.cs, r.cl, r.ls, r.ll)
    ensures !AnyNegative4(r.cs, r.cl, r.ls, r.ll)
  {
    var q := SeriesQ(zl);
    var rp := HpParallelR(zl);
    var rv := Rv(m, rp, zs.re);
    if rp <= rv then CcllNone(cu, lu)
    else
      var qs := SectionQ(m, rp, rv);
      var ql := SectionQ(m, rv, zs.re);
      SeriesCPositive(qs, w, rv);
      CcllFiltered(ScaleValue(m, HpSeriesC(qs, w, rv), cu),
                   ScaleValue(m, Num(ShuntCOfQ(ql, rv, w)), cu),
                   ScaleValue(m, ShuntLAbsorbed(rp, w, qs, q, zl.im), lu),
                   ScaleValue(m, Num(LpSeriesL(ql, zs.re, zs.im, w)), lu), cu, lu)
  }

  method CalcBp2(m: Libm, zs: Complex, zl: Complex, w: real, cu: Unit, lu: Unit) returns (r: CCLL)
    requires Passive(zs, zl, w) && SqrtLaw(m) && Scalable(m, cu) && Scalable(m, lu)
    ensures r == Bp2(m, zs, zl, w, cu, lu)
  {
    var cs: Value;
    var cl: Value;
    var ls: Value;
    var ll: Value;
    var q := SeriesQ(zl);
    var rp := HpParallelR(zl);
    var rv := Rv(m, rp, zs.re);
    if rp <= rv {
      cs, cl, ls, ll := NaN, NaN, NaN, NaN;
      r := CCLL(cs, cl, ls, ll, GetUnit(cu, Farad), GetUnit(lu, Henry));
    } else {
      var qs := SectionQ(m, rp, rv);
      var ql := SectionQ(m, rv, zs.re);
      cs := HpSeriesC(qs, w, rv);
      ls := ShuntLAbsorbed(rp, w, qs, q, zl.im);
      ll := Num(LpSeriesL(ql, zs.re, zs.im, w));
      cl := Num(ShuntCOfQ(ql, rv, w));
      cs := ScaleValue(m, cs, cu);
      cl := ScaleValue(m, cl, cu);
      ls := ScaleValue(m, ls, lu);
      ll := ScaleValue(m, ll, lu);
      assert Bp2(m, zs, zl, w, cu, lu) == CcllFiltered(cs, cl, ls, ll, cu, lu);
      r := VoidNegative4(cs, cl, ls, ll, cu, lu);
    }
  }

  /** `calc_bp3`: a low-pass section at the source, then a high-pass section whose capacitor absorbs the load reactance. */
  function Bp3(m: Libm, zs: Complex, zl: Complex, w: real, cu: Unit, lu: Unit): (r: CCLL)
    requires Passive(zs, zl, w) && SqrtLaw(m) && Scalable(m, cu) && Scalable(m, lu)
    ensures Labelled(r.cScale, r.lScale, cu, lu)
    ensures LpParallelR(zs) <= zl.re ==> r == CcllNone(cu, lu)
    ensures AllOrNoneNaN4(r.cs, r.cl, r.ls, r.ll)
    ensures !AnyNegative4(r.cs, r.cl, r.ls, r.ll)
  {
    var q := -zs.im / zs.re;
    var rp := LpParallelR(zs);
    var rv := Rv(m, rp, zl.re);
    if rp <= rv then CcllNone(cu, lu)
    else
      var qs := SectionQ(m, rp, rv);
      var ql := SectionQ(m, rv, zl.re);
      SeriesCAbsorbedNotNaN(ql, w, zl.re, zl.im);
      ShuntLFinite(rv, w, ql);
      CcllFiltered(ScaleValue(m, Num(LpShuntC(qs, q, rp, w)), cu),
                   ScaleValue(m, HpSeriesCAbsorbed(ql, w, zl.re, zl.im), cu),
                   ScaleValue(m, Num(SeriesLOfQ(qs, rv, w)), lu),
                   ScaleValue(m, HpShuntL(rv, w, ql), lu), cu, lu)
  }

  method CalcBp3(m: Libm, zs: Complex, zl: Complex, w: real, cu: Unit, lu: Unit) returns (r: CCLL)
    requires Passive(zs, zl, w) && SqrtLaw(m) && Scalable(m, cu) && Scalable(m, lu)
    ensures r == Bp3(m, zs, zl, w, cu, lu)
  {
    var cs: Value;
    var cl: Value;
    var ls: Value;
    var ll: Value;
    var q := -zs.im / zs.re;
    var rp := LpParallelR(zs);
    var rv := Rv(m, rp, zl.re);
    if rp <= rv {
      cs, cl, ls, ll := NaN, NaN, NaN, NaN;
      r := CCLL(cs, cl, ls, ll, GetUnit(cu, Farad), GetUnit(lu, Henry));
    } else {
      var qs := SectionQ(m, rp, rv);
      var ql := SectionQ(m, rv, zl.re);
      cs := Num(LpShuntC(qs, q, rp, w));
      ls := Num(SeriesLOfQ(qs, rv, w));
      ll := HpShuntL(rv, w, ql);
      cl := HpSeriesCAbsorbed(ql, w, zl.re, zl.im);
      cs := ScaleValue(m, cs, cu);
      cl := ScaleValue(m, cl, cu);
      ls := ScaleValue(m, ls, lu);
      ll := ScaleValue(m, ll, lu);
      assert Bp3(m, zs, zl, w, cu, lu) == CcllFiltered(cs, cl, ls, ll, cu, lu);
      r := VoidNegative4(cs, cl, ls, ll, cu, lu);
    }
  }

  /** `calc_bp4`: `calc_bp3` built from the load's parallel resistance. */
  function Bp4(m: Libm, zs: Complex, zl: Complex, w: real, cu: Unit, lu: Unit): (r: CCLL)
    requires Passive(zs, zl, w) && SqrtLaw(m) && Scalable(m, cu) && Scalable(m, lu)
    ensures Labelled(r.cScale, r.lScale, cu, lu)
    ensures LpParallelR(zl) <= zs.re ==> r == CcllNone(cu, lu)
    ensures AllOrNoneNaN4(r.cs, r.cl, r.ls, r.ll)
    ensures !AnyNegative4(r.cs, r.cl, r.ls, r.ll)
  {
    var q := -zl.im / zl.re;
    var rp := LpParallelR(zl);
    var rv := Rv(m, rp, zs.re);
    if rp <= rv then CcllNone(cu, lu)
    else
      var qs := SectionQ(m, rp, rv);
      var ql := SectionQ(m, rv, zs.re);
      SeriesCAbsorbedNotNaN(ql, w, zs.re, zs.im);
      ShuntLFinite(rv, w, ql);
      CcllFiltered(ScaleValue(m, Num(LpShuntC(qs, q, rp, w)), cu),
                   ScaleValue(m, HpSeriesCAbsorbed(ql, w, zs.re, zs.im), cu),
                   ScaleValue(m, Num(SeriesLOfQ(qs, rv, w)), lu),
                   ScaleValue(m, HpShuntL(rv, w, ql), lu), cu, lu)
  }

  method CalcBp4(m: Libm, zs: Complex, zl: Complex, w: real, cu: Unit, lu: Unit) returns (r: CCLL)
    requires Passive(zs, zl, w) && SqrtLaw(m) && Scalable(m, cu) && Scalable(m, lu)
    ensures r == Bp4(m, zs, zl, w, cu, lu)
  {
    var cs: Value;
    var cl: Value;
    var ls: Value;
    var ll: Value;
    var q := -zl.im / zl.re;
    var rp := LpParallelR(zl);
    var rv := Rv(m, rp, zs.re);
    if rp <= rv {
      cs, cl, ls, ll := NaN, NaN, NaN, NaN;
      r := CCLL(cs, cl, ls, ll, GetUnit(cu, Farad), GetUnit(lu, Henry));
    } else {
      var qs := SectionQ(m, rp, rv);
      var ql := SectionQ(m, rv, zs.re);
      cs := Num(LpShuntC(qs, q, rp, w));
      ls := Num(SeriesLOfQ(qs, rv, w));
      ll := HpShuntL(rv, w, ql);
      cl := HpSeriesCAbsorbed(ql, w, zs.re, zs.im);
      cs := ScaleValue(m, cs, cu);
      cl := ScaleValue(m, cl, cu);
      ls := ScaleValue(m, ls, lu);
      ll := ScaleValue(m, ll, lu);
      assert Bp4(m, zs, zl, w, cu, lu) == CcllFiltered(cs, cl, ls, ll, cu, lu);
      r := VoidNegative4(cs, cl, ls, ll, cu, lu);
    }
  }

  /** `calc_bp2` is `calc_bp1` with the ports swapped, field by field. */
  lemma {:induction false} Bp12PortSwap(m: Libm, zs: Complex, zl: Complex, w: real, cu: Unit, lu: Unit)
    requires Passive(zs, zl, w) && SqrtLaw(m) && Scalable(m, cu) && Scalable(m, lu)
    ensures Bp2(m, zs, zl, w, cu, lu) == Bp1(m, zl, zs, w, cu, lu)
  {
  }

  /** `calc_bp4` is `calc_bp3` with the ports swapped, field by field. */
  lemma {:induction false} Bp34PortSwap(m: Libm, zs: Complex, zl: Complex, w: real, cu: Unit, lu: Unit)
    requires Passive(zs, zl, w) && SqrtLaw(m) && Scalable(m, cu) && Scalable(m, lu)
    ensures Bp4(m, zs, zl, w, cu, lu) == Bp3(m, zl, zs, w, cu, lu)
  {
  }

  /**
   * When the source's Q equals the source-side section's Q, the inductor
   * and the source's own parallel inductance coincide: the absorbed
   * inductor is +inf, unless another part voids the result.
   */
  lemma {:induction false} Bp1CoincidentShunt(m: Libm, zs: Complex, zl: Complex, w: real, cu: Unit, lu: Unit)
    requires Passive(zs, zl, w) && SqrtLaw(m) && Scalable(m, cu) && Scalable(m, lu) && !lu.Lambda?
    requires zs.im != 0.0 && HpParallelR(zs) > zl.re
    requires SeriesQ(zs) == SectionQ(m, HpParallelR(zs), Rv(m, HpParallelR(zs), zl.re))
    ensures Bp1(m, zs, zl, w, cu, lu).ls == PosInf || Bp1(m, zs, zl, w, cu, lu) == CcllNone(cu, lu)
  {
  }

  /**
   * When the load-side section's Q is the load's `-x / r`, the capacitor and
   * the load's own `-1 / (w x)` coincide: the absorbed capacitor is +inf,
   * unless another part voids the result.
   */
  lemma {:induction false} Bp3CoincidentSeries(m: Libm, zs: Complex, zl: Complex, w: real, cu: Unit, lu: Unit)
    requires Passive(zs, zl, w) && SqrtLaw(m) && Scalable(m, cu) && Scalable(m, lu) && !cu.Lambda?
    requires zl.im != 0.0 && LpParallelR(zs) > zl.re
    requires var rp := LpParallelR(zs); SectionQ(m, Rv(m, rp, zl.re), zl.re) == -zl.im / zl.re
    ensures Bp3(m, zs, zl, w, cu, lu).cl == PosInf || Bp3(m, zs, zl, w, cu, lu) == CcllNone(cu, lu)
  {
    var rp := LpParallelR(zs);
    SeriesCCoincides(SectionQ(m, Rv(m, rp, zl.re), zl.re), w, zl.re, zl.im);
  }
}
