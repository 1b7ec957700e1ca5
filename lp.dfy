/**
 * `matching/lp.rs`: the two-section low-pass network, two series inductors
 * and two shunt capacitors.  Each part absorbs a port reactance by
 * subtraction, so no part is ever +inf.  `calc_lp1` starts from the
 * source's parallel resistance and `calc_lp2` from the load's.
 */
module LowPass {
  import opened Numeric
  import opened Units
  import opened Networks
  import opened Ells
  import opened TwoSections

  /** `calc_lp1`: the source-side capacitor absorbs the source reactance and the load-side inductor the load reactance. */
  function Lp1(m: Libm, zs: Complex, zl: Complex, w: real, cu: Unit, lu: Unit): (r: CCLL)
    requires Passive(zs, zl, w) && SqrtLaw(m) && Scalable(m, cu) && Scalable(m, lu)
    ensures Labelled(r.cScale, r.lScale, cu, lu)
    ensures LpParallelR(zs) <= zl.re ==> r == CcllNone(cu, lu)
    ensures AllOrNoneNaN4(r.cs, r.cl, r.ls, r.ll)
    ensures !AnyNegative4(r.cs, r.cl, r.ls, r.ll)
    ensures NoInfinity(r)
  {
    var q := -zs.im / zs.re;
    var rp := LpParallelR(zs);
    var rv := Rv(m, rp, zl.re);
    if rp <= rv then CcllNone(cu, lu)
    else
      var qs := SectionQ(m, rp, rv);
      var ql := SectionQ(m, rv, zl.re);
      CcllFiltered(ScaleValue(m, Num(LpShuntC(qs, q, rp, w)), cu),
                   ScaleValue(m, Num(ShuntCOfQ(ql, rv, w)), cu),
                   ScaleValue(m, Num(SeriesLOfQ(qs, rv, w)), lu),
                   ScaleValue(m, Num(LpSeriesL(ql, zl.re, zl.im, w)), lu), cu, lu)
  }

  method CalcLp1(m: Libm, zs: Complex, zl: Complex, w: real, cu: Unit, lu: Unit) returns (r: CCLL)
    requires Passive(zs, zl, w) && SqrtLaw(m) && Scalable(m, cu) && Scalable(m, lu)
    ensures r == Lp1(m, zs, zl, w, cu, lu)
  {
    var cs: Value;
    var cl: Value;
    var ls: Value;
    var ll: Value;
    var q := -zs.im / zs.re;
    var rp := LpParallelR(zs);
    var rv := Rv(m, rp, zl.re);
    if rp <= rv {
      cs, cl, ls, ll := NaN, NaN, NaN, NaN;
      r := CCLL(cs, cl, ls, ll, GetUnit(cu, Farad), GetUnit(lu, Henry));
    } else {
      var qs := SectionQ(m, rp, rv);
      var ql := SectionQ(m, rv, zl.re);
      cs := Num(LpShuntC(qs, q, rp, w));
      ls := Num(SeriesLOfQ(qs, rv, w));
      ll := Num(LpSeriesL(ql, zl.re, zl.im, w));
      cl := Num(ShuntCOfQ(ql, rv, w));
      cs := ScaleValue(m, cs, cu);
      cl := ScaleValue(m, cl, cu);
      ls := ScaleValue(m, ls, lu);
      ll := ScaleValue(m, ll, lu);
      assert Lp1(m, zs, zl, w, cu, lu) == CcllFiltered(cs, cl, ls, ll, cu, lu);
      r := VoidNegative4(cs, cl, ls, ll, cu, lu);
    }
  }

  /** `calc_lp2`: the same network built from the load's parallel resistance. */
  function Lp2(m: Libm, zs: Complex, zl: Complex, w: real, cu: Unit, lu: Unit): (r: CCLL)
    requires Passive(zs, zl, w) && SqrtLaw(m) && Scalable(m, cu) && Scalable(m, lu)
    ensures Labelled(r.cScale, r.lScale, cu, lu)
    ensures LpParallelR(zl) <= zs.re ==> r == CcllNone(cu, lu)
    ensures AllOrNoneNaN4(r.cs, r.cl, r.ls, r.ll)
    ensures !AnyNegative4(r.cs, r.cl, r.ls, r.ll)
    ensures NoInfinity(r)
  {
    var q := -zl.im / zl.re;
    var rp := LpParallelR(zl);
    var rv := Rv(m, rp, zs.re);
    if rp <= rv then CcllNone(cu, lu)
    else
      var qs := SectionQ(m, rp, rv);
      var ql := SectionQ(m, rv, zs.re);
      CcllFiltered(ScaleValue(m, Num(LpShuntC(qs, q, rp, w)), cu),
                   ScaleValue(m, Num(ShuntCOfQ(ql, rv, w)), cu),
                   ScaleValue(m, Num(SeriesLOfQ(qs, rv, w)), lu),
                   ScaleValue(m, Num(LpSeriesL(ql, zs.re, zs.im, w)), lu), cu, lu)
  }

  method CalcLp2(m: Libm, zs: Complex, zl: Complex, w: real, cu: Unit, lu: Unit) returns (r: CCLL)
    requires Passive(zs, zl, w) && SqrtLaw(m) && Scalable(m, cu) && Scalable(m, lu)
    ensures r == Lp2(m, zs, zl, w, cu, lu)
  {
    var cs: Value;
    var cl: Value;
    var ls: Value;
    var ll: Value;
    var q := -zl.im / zl.re;
    var rp := LpParallelR(zl);
    var rv := Rv(m, rp, zs.re);
    if rp <= rv {
      cs, cl, ls, ll := NaN, NaN, NaN, NaN;
      r := CCLL(cs, cl, ls, ll, GetUnit(cu, Farad), GetUnit(lu, Henry));
    } else {
      var qs := SectionQ(m, rp, rv);
      var ql := SectionQ(m, rv, zs.re);
      cs := Num(LpShuntC(qs, q, rp, w));
      ls := Num(SeriesLOfQ(qs, rv, w));
      ll := Num(LpSeriesL(ql, zs.re, zs.im, w));
      cl := Num(ShuntCOfQ(ql, rv, w));
      cs := ScaleValue(m, cs, cu);
      cl := ScaleValue(m, cl, cu);
      ls := ScaleValue(m, ls, lu);
      ll := ScaleValue(m, ll, lu);
      assert Lp2(m, zs, zl, w, cu, lu) == CcllFiltered(cs, cl, ls, ll, cu, lu);
      r := VoidNegative4(cs, cl, ls, ll, cu, lu);
    }
  }

  /** `calc_lp2` is `calc_lp1` with the ports swapped, field by field. */
  lemma {:induction false} LpPortSwap(m: Libm, zs: Complex, zl: Complex, w: real, cu: Unit, lu: Unit)
    requires Passive(zs, zl, w) && SqrtLaw(m) && Scalable(m, cu) && Scalable(m, lu)
    ensures Lp2(m, zs, zl, w, cu, lu) == Lp1(m, zl, zs, w, cu, lu)
  {
  }
}
