/**
 * `matching/pi.rs`: the two Pi networks for a target Q, a series inductor
 * between two shunt capacitors and a series capacitor between two shunt
 * inductors.  Both step the parallel resistance of each port down to the
 * virtual resistance `rv = max / (q^2 + 1)`, below both ports, through one
 * section at each port.  The shunt capacitors subtract the port's own
 * parallel capacitance; the shunt inductors absorb the port's own parallel
 * inductance in the form `l * (lp / (l - lp))`, with no test for `l == lp`.
 */
module Pis {
  import opened Numeric
  import opened Units
  import opened Networks
  import opened Ells
  import opened TwoSections
  import opened PiTees

  /** `max / (q^2 + 1)`: the virtual resistance, at or below both ports for a target at or above the least Q. */
  function PiRv(m: Libm, rs: real, rl: real, qt: real): (rv: real)
    requires SqrtLaw(m) && rs > 0.0 && rl > 0.0 && qt >= MinQ(m, rs, rl)
    ensures 0.0 < rv && rv <= rs && rv <= rl
    ensures qt > MinQ(m, rs, rl) ==> rv < rs && rv < rl
  {
    MinQBound(m, rs, rl, qt);
    SquareNonneg(qt);
    DivBelow(Max(rs, rl), Min(rs, rl), qt * qt + 1.0);
    Max(rs, rl) / (qt * qt + 1.0)
  }

  /** `a <= b k` with positive factors puts `a / k` in `(0, b]`, strictly below `b` when `a < b k`. */
  lemma DivBelow(a: real, b: real, k: real)
    requires a > 0.0 && b > 0.0 && k > 0.0 && a <= b * k
    ensures 0.0 < a / k <= b
    ensures a < b * k ==> a / k < b
  {
    var p := a / k;
    assert p * k == a;
    if p <= 0.0 {
      MulNonneg(-p, k);
    }
    if p > b {
      MulPos(p - b, k);
    }
    if a < b * k && p >= b {
      MulNonneg(p - b, k);
    }
  }

  /** `rp / (q w)`: the parallel inductance of a port whose parallel resistance is `rp` and whose Q is `q`. */
  function PortInductance(rp: real, q: real, w: real): (lp: real)
    requires rp > 0.0 && q != 0.0 && w > 0.0
    ensures q > 0.0 ==> lp > 0.0
  {
    MulNonZero(q, w);
    if q > 0.0 then
      MulPos(q, w);
      rp / (q * w)
    else rp / (q * w)
  }

  /**
   * `x *= a / (x - a)`: the series combination that absorbs the port's own
   * inductance `a`.  For `x == a` the quotient is `a / +0`, an infinity of
   * the sign of `a`; an infinite `x` comes out NaN, as `inf * (a / inf)` does.
   */
  function PiAbsorb(x: Value, a: real): (r: Value)
    ensures !x.Num? ==> r.NaN?
    ensures x.Num? && x.v > 0.0 && a != 0.0 ==> !r.NaN?
    ensures x.Num? && x.v > 0.0 && x.v == a ==> r == PosInf
  {
    if x.Num? then MulValue(x.v, Quot(a, x.v - a)) else NaN
  }

  /**
   * The shunt inductor `rp / (w qx)` of a section at a port of Q `q`,
   * absorbing the port's own parallel inductance when `q` is not zero.
   */
  function PiShuntL(rp: real, w: real, qx: real, q: real): (l: Value)
    requires rp > 0.0 && w > 0.0 && qx >= 0.0
    ensures qx > 0.0 ==> !l.NaN?
    ensures qx > 0.0 && q == qx ==> l == PosInf
  {
    if qx > 0.0 then
      ShuntLFinite(rp, w, qx);
      if q != 0.0 then PiAbsorb(HpShuntL(rp, w, qx), PortInductance(rp, q, w)) else HpShuntL(rp, w, qx)
    else
      if q != 0.0 then PiAbsorb(HpShuntL(rp, w, qx), PortInductance(rp, q, w)) else HpShuntL(rp, w, qx)
  }

  /**
   * The two negativity filters: `(c, ls, ll)` become NaN together when one
   * of them is negative, and so do `(l, cs, cl)`.  An infinite part stays.
   */
  function PiFiltered(c: Value, cs: Value, cl: Value, l: Value, ls: Value, ll: Value, q: real, cu: Unit, lu: Unit): (r: PiTee)
    ensures r.q == Num(q) && Labelled(r.cScale, r.lScale, cu, lu)
    ensures !AnyNegative3(r.c, r.ls, r.ll) && !AnyNegative3(r.l, r.cs, r.cl)
    ensures AnyNegative3(c, ls, ll) ==> r.c.NaN? && r.ls.NaN? && r.ll.NaN?
    ensures !AnyNegative3(c, ls, ll) ==> r.c == c && r.ls == ls && r.ll == ll
    ensures AnyNegative3(l, cs, cl) ==> r.l.NaN? && r.cs.NaN? && r.cl.NaN?
    ensures !AnyNegative3(l, cs, cl) ==> r.l == l && r.cs == cs && r.cl == cl
  {
    var a := AnyNegative3(c, ls, ll);
    var b := AnyNegative3(l, cs, cl);
    PiTee(if a then NaN else c, if b then NaN else cs, if b then NaN else cl,
          if b then NaN else l, if a then NaN else ls, if a then NaN else ll,
          Num(q), GetUnit(cu, Farad), GetUnit(lu, Henry))
  }

  /** The two filters as the source applies them, one group after the other. */
  method VoidPiGroups(c: Value, cs: Value, cl: Value, l: Value, ls: Value, ll: Value, q: real, cu: Unit, lu: Unit)
    returns (r: PiTee)
    ensures r == PiFiltered(c, cs, cl, l, ls, ll, q, cu, lu)
  {
    var c2, cs2, cl2, l2, ls2, ll2 := c, cs, cl, l, ls, ll;
    if AnyNegative3(c, ls, ll) {
      c2, ls2, ll2 := NaN, NaN, NaN;
    }
    if AnyNegative3(l, cs, cl) {
      l2, cs2, cl2 := NaN, NaN, NaN;
    }
    r := PiTee(c2, cs2, cl2, l2, ls2, ll2, Num(q), GetUnit(cu, Farad), GetUnit(lu, Henry));
  }

  /** The parts for the virtual resistance `rv` and the section Qs `qx1` and `qx2`, scaled and filtered. */
  function PiStage(m: Libm, zs: Complex, zl: Complex, w: real, rv: real, qx1: real, qx2: real, qt: real,
                   cu: Unit, lu: Unit): PiTee
    requires Passive(zs, zl, w) && rv > 0.0 && qx1 >= 0.0 && qx2 >= 0.0 && Scalable(m, cu) && Scalable(m, lu)
  {
    var rps, rpl := LpParallelR(zs), LpParallelR(zl);
    var qs, ql := -zs.im / zs.re, -zl.im / zl.re;
    PiFiltered(ScaleValue(m, ParallelValue(HpSeriesC(qx2, w, rv), HpSeriesC(qx1, w, rv)), cu),
               ScaleValue(m, Num(LpShuntC(qx1, qs, rps, w)), cu),
               ScaleValue(m, Num(LpShuntC(qx2, ql, rpl, w)), cu),
               ScaleValue(m, Num(SeriesLOfQ(qx1, rv, w) + SeriesLOfQ(qx2, rv, w)), lu),
               ScaleValue(m, PiShuntL(rps, w, qx1, qs), lu),
               ScaleValue(m, PiShuntL(rpl, w, qx2, ql), lu), qt, cu, lu)
  }

  /** The feasible branch: each port's parallel resistance stepped down to `rv`. */
  function PiParts(m: Libm, zs: Complex, zl: Complex, w: real, qt: real, cu: Unit, lu: Unit): PiTee
    requires Passive(zs, zl, w) && SqrtLaw(m) && Scalable(m, cu) && Scalable(m, lu)
    requires qt >= MinQ(m, zs.re, zl.re)
  {
    var rv := PiRv(m, zs.re, zl.re, qt);
    PiStage(m, zs, zl, w, rv, SectionRoot(m, LpParallelR(zs), rv), SectionRoot(m, LpParallelR(zl), rv), qt, cu, lu)
  }

  /**
   * `calc_pi`.  A negative target voids everything, `q` included; a zero
   * target between equal resistances gives all zeros; a target below the
   * least Q voids everything.  Otherwise `q` is the target, no part is
   * negative, and the finite `(l, cs, cl)` are NaN together or not at all.
   */
  function Pi(m: Libm, zs: Complex, zl: Complex, w: real, qt: real, cu: Unit, lu: Unit): (r: PiTee)
    requires Passive(zs, zl, w) && SqrtLaw(m) && Scalable(m, cu) && Scalable(m, lu)
    ensures Labelled(r.cScale, r.lScale, cu, lu)
    ensures qt < 0.0 ==> r == PiTeeAll(NaN, NaN, cu, lu)
    ensures qt == 0.0 && zs.re == zl.re ==> r == PiTeeAll(Num(0.0), Num(0.0), cu, lu)
    ensures 0.0 <= qt < MinQ(m, zs.re, zl.re) && !(qt == 0.0 && zs.re == zl.re) ==> r == PiTeeAll(NaN, NaN, cu, lu)
    ensures 0.0 <= qt && MinQ(m, zs.re, zl.re) <= qt && !(qt == 0.0 && zs.re == zl.re) ==>
      r.q == Num(qt) && !AnyNegative3(r.c, r.ls, r.ll) && !AnyNegative3(r.l, r.cs, r.cl) &&
      AllOrNoneNaN3(r.l, r.cs, r.cl)
  {
    if qt < 0.0 then PiTeeAll(NaN, NaN, cu, lu)
    else if qt == 0.0 && zs.re == zl.re then PiTeeAll(Num(0.0), Num(0.0), cu, lu)
    else if qt < MinQ(m, zs.re, zl.re) then PiTeeAll(NaN, NaN, cu, lu)
    else PiParts(m, zs, zl, w, qt, cu, lu)
  }

  method CalcPi(m: Libm, zs: Complex, zl: Complex, w: real, qt: real, cu: Unit, lu: Unit) returns (r: PiTee)
    requires Passive(zs, zl, w) && SqrtLaw(m) && Scalable(m, cu) && Scalable(m, lu)
    ensures r == Pi(m, zs, zl, w, qt, cu, lu)
  {
    if qt < 0.0 {
      r := PiTeeAll(NaN, NaN, cu, lu);
    } else if qt == 0.0 && zs.re == zl.re {
      r := PiTeeAll(Num(0.0), Num(0.0), cu, lu);
    } else {
      r := PiAboveLeast(m, zs, zl, w, qt, cu, lu);
    }
  }

  /** `calc_pi` past its first two tests: the least-Q test, then the network. */
  method PiAboveLeast(m: Libm, zs: Complex, zl: Complex, w: real, qt: real, cu: Unit, lu: Unit) returns (r: PiTee)
    requires Passive(zs, zl, w) && SqrtLaw(m) && Scalable(m, cu) && Scalable(m, lu)
    requires qt >= 0.0 && !(qt == 0.0 && zs.re == zl.re)
    ensures r == Pi(m, zs, zl, w, qt, cu, lu)
  {
    if qt < MinQ(m, zs.re, zl.re) {
      r := PiTeeAll(NaN, NaN, cu, lu);
    } else {
      r := PiNetwork(m, zs, zl, w, qt, cu, lu);
    }
  }

  /** The feasible branch of `calc_pi`. */
  method PiNetwork(m: Libm, zs: Complex, zl: Complex, w: real, qt: real, cu: Unit, lu: Unit) returns (r: PiTee)
    requires Passive(zs, zl, w) && SqrtLaw(m) && Scalable(m, cu) && Scalable(m, lu)
    requires qt >= 0.0 && qt >= MinQ(m, zs.re, zl.re) && !(qt == 0.0 && zs.re == zl.re)
    ensures r == Pi(m, zs, zl, w, qt, cu, lu)
  {
    var rv := PiRv(m, zs.re, zl.re, qt);
    assert Pi(m, zs, zl, w, qt, cu, lu) == PiParts(m, zs, zl, w, qt, cu, lu);
    r := PiSections(m, zs, zl, w, rv, qt, cu, lu);
  }

  /** The parts of `calc_pi` for the virtual resistance `rv`, with one variable `qx` for every section Q in turn. */
  method PiSections(m: Libm, zs: Complex, zl: Complex, w: real, rv: real, qt: real, cu: Unit, lu: Unit) returns (r: PiTee)
    requires Passive(zs, zl, w) && SqrtLaw(m) && Scalable(m, cu) && Scalable(m, lu)
    requires 0.0 < rv <= zs.re && rv <= zl.re
    ensures r == PiStage(m, zs, zl, w, rv, SectionRoot(m, LpParallelR(zs), rv), SectionRoot(m, LpParallelR(zl), rv), qt, cu, lu)
  {
    var qs := -zs.im / zs.re;
    var ql := -zl.im / zl.re;
    var rps := LpParallelR(zs);
    var rpl := LpParallelR(zl);
    var qx := SectionRoot(m, rps, rv);
    var cs := Num(LpShuntC(qx, qs, rps, w));
    var l5 := SeriesLOfQ(qx, rv, w);
    qx := SectionRoot(m, rpl, rv);
    var cl := Num(LpShuntC(qx, ql, rpl, w));
    var l := Num(l5 + SeriesLOfQ(qx, rv, w));
    qx := SectionRoot(m, rps, rv);
    var ls := PiShuntL(rps, w, qx, qs);
    var c5 := HpSeriesC(qx, w, rv);
    qx := SectionRoot(m, rpl, rv);
    var ll := PiShuntL(rpl, w, qx, ql);
    var c1 := HpSeriesC(qx, w, rv);
    var c := ParallelValue(c1, c5);
    c := ScaleValue(m, c, cu);
    cs := ScaleValue(m, cs, cu);
    cl := ScaleValue(m, cl, cu);
    l := ScaleValue(m, l, lu);
    ls := ScaleValue(m, ls, lu);
    ll := ScaleValue(m, ll, lu);
    PiStageOf(m, zs, zl, w, rv, SectionRoot(m, rps, rv), SectionRoot(m, rpl, rv), qt, cu, lu, c, cs, cl, l, ls, ll);
    r := VoidPiGroups(c, cs, cl, l, ls, ll, qt, cu, lu);
  }

  /** Parts computed as `PiStage` computes them are filtered into `PiStage`. */
  lemma PiStageOf(m: Libm, zs: Complex, zl: Complex, w: real, rv: real, qx1: real, qx2: real, qt: real,
                  cu: Unit, lu: Unit, c: Value, cs: Value, cl: Value, l: Value, ls: Value, ll: Value)
    requires Passive(zs, zl, w) && rv > 0.0 && qx1 >= 0.0 && qx2 >= 0.0 && Scalable(m, cu) && Scalable(m, lu)
    requires c == ScaleValue(m, ParallelValue(HpSeriesC(qx2, w, rv), HpSeriesC(qx1, w, rv)), cu)
    requires cs == ScaleValue(m, Num(LpShuntC(qx1, -zs.im / zs.re, LpParallelR(zs), w)), cu)
    requires cl == ScaleValue(m, Num(LpShuntC(qx2, -zl.im / zl.re, LpParallelR(zl), w)), cu)
    requires l == ScaleValue(m, Num(SeriesLOfQ(qx1, rv, w) + SeriesLOfQ(qx2, rv, w)), lu)
    requires ls == ScaleValue(m, PiShuntL(LpParallelR(zs), w, qx1, -zs.im / zs.re), lu)
    requires ll == ScaleValue(m, PiShuntL(LpParallelR(zl), w, qx2, -zl.im / zl.re), lu)
    ensures PiStage(m, zs, zl, w, rv, qx1, qx2, qt, cu, lu) == PiFiltered(c, cs, cl, l, ls, ll, qt, cu, lu)
  {
  }

  /** Above the least Q, `(c, ls, ll)` are NaN together or not at all. */
  lemma {:induction false} PiShuntGroupAgrees(m: Libm, zs: Complex, zl: Complex, w: real, qt: real, cu: Unit, lu: Unit)
    requires Passive(zs, zl, w) && SqrtLaw(m) && Scalable(m, cu) && Scalable(m, lu)
    requires qt > MinQ(m, zs.re, zl.re) && !(qt == 0.0 && zs.re == zl.re)
    ensures var r := Pi(m, zs, zl, w, qt, cu, lu); AllOrNoneNaN3(r.c, r.ls, r.ll)
  {
    var rv := PiRv(m, zs.re, zl.re, qt);
    var qx1 := SectionRoot(m, LpParallelR(zs), rv);
    var qx2 := SectionRoot(m, LpParallelR(zl), rv);
    assert Pi(m, zs, zl, w, qt, cu, lu) == PiStage(m, zs, zl, w, rv, qx1, qx2, qt, cu, lu);
    StageShuntGroupAgrees(m, zs, zl, w, rv, qx1, qx2, qt, cu, lu);
  }

  /** With positive section Qs, `(c, ls, ll)` are never NaN before the filter. */
  lemma StageShuntGroupAgrees(m: Libm, zs: Complex, zl: Complex, w: real, rv: real, qx1: real, qx2: real, qt: real,
                              cu: Unit, lu: Unit)
    requires Passive(zs, zl, w) && rv > 0.0 && qx1 > 0.0 && qx2 > 0.0 && Scalable(m, cu) && Scalable(m, lu)
    ensures var r := PiStage(m, zs, zl, w, rv, qx1, qx2, qt, cu, lu); AllOrNoneNaN3(r.c, r.ls, r.ll)
  {
    SeriesCPositive(qx1, w, rv);
    SeriesCPositive(qx2, w, rv);
  }

  /**
   * When the source-side section Q equals the port's own Q `-x / r`, the
   * shunt inductor and the port's parallel inductance coincide, and the
   * source-side inductor is +inf, which no test removes, unless a negative
   * part voids its group.
   */
  lemma {:induction false} PiCoincidentShunt(m: Libm, zs: Complex, zl: Complex, w: real, qt: real, cu: Unit, lu: Unit)
    requires Passive(zs, zl, w) && SqrtLaw(m) && Scalable(m, cu) && Scalable(m, lu) && !lu.Lambda?
    requires 0.0 <= qt && qt >= MinQ(m, zs.re, zl.re) && !(qt == 0.0 && zs.re == zl.re)
    requires zs.im < 0.0 && SectionRoot(m, LpParallelR(zs), PiRv(m, zs.re, zl.re, qt)) == -zs.im / zs.re
    ensures var r := Pi(m, zs, zl, w, qt, cu, lu); r.ls == PosInf || (r.c.NaN? && r.ls.NaN? && r.ll.NaN?)
  {
    var rv := PiRv(m, zs.re, zl.re, qt);
    var qx1 := SectionRoot(m, LpParallelR(zs), rv);
    var qx2 := SectionRoot(m, LpParallelR(zl), rv);
    assert Pi(m, zs, zl, w, qt, cu, lu) == PiStage(m, zs, zl, w, rv, qx1, qx2, qt, cu, lu);
    assert -zs.im / zs.re > 0.0;
    assert PiShuntL(LpParallelR(zs), w, qx1, -zs.im / zs.re) == PosInf;
  }
}
