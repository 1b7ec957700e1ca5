/**
 * `matching/ell.rs`: the four L-section matching networks.  Each solver
 * takes the conjugate shortcut, or tests feasibility, computes the ideal
 * parts, absorbs the port reactances they meet, scales into the caller's
 * units, and voids every value when a part comes out negative.
 */
module Ells {
  import opened Numeric
  import opened Units
  import opened Networks

  /**
   * `(1 + qs^2) * r` with `qs = x / r`: the parallel resistance a series
   * `r + jx` is equivalent to, as the high-pass forms write it.
   */
  function HpParallelR(z: Complex): (rp: real)
    requires z.re > 0.0
    ensures rp >= z.re
  {
    var qs := z.im / z.re;
    SquareNonneg(qs);
    MulNonneg(qs * qs, z.re);
    (1.0 + qs * qs) * z.re
  }

  /** The same parallel resistance as the low-pass forms write it, with `qs = -x / r`. */
  function LpParallelR(z: Complex): (rp: real)
    requires z.re > 0.0
    ensures rp >= z.re
  {
    var qs := -z.im / z.re;
    SquareNonneg(qs);
    MulNonneg(qs * qs, z.re);
    z.re * (1.0 + qs * qs)
  }

  /** `x / r`: the Q of a series impedance. */
  function SeriesQ(z: Complex): (r: real)
    requires z.re > 0.0
    ensures r == 0.0 <==> z.im == 0.0
  {
    z.im / z.re
  }

  /** `sqrt(rp / r - 1)`: the Q of an L-section that steps `rp` down to `r`. */
  function EllQ(m: Libm, rp: real, r: real): real
    requires 0.0 < r <= rp
  {
    RatioAtLeastOne(rp, r);
    Sqrt(m, rp / r - 1.0)
  }

  /** `rp / (w q)`: the high-pass shunt inductor. */
  function HpShuntL(rp: real, w: real, q: real): Value
  {
    Quot(rp, w * q)
  }

  /** `1 / (q w r)`: the high-pass series capacitor. */
  function HpSeriesC(q: real, w: real, r: real): Value
  {
    Quot(1.0, q * w * r)
  }

  /** The high-pass series capacitor once it has absorbed the reactance `x` of the port it meets. */
  function HpSeriesCAbsorbed(q: real, w: real, r: real, x: real): Value
    requires w > 0.0
  {
    if x != 0.0 then Absorb(HpSeriesC(q, w, r), CapOfReactance(w, x)) else HpSeriesC(q, w, r)
  }

  /** The high-pass shunt inductor once it has absorbed the port reactance `x`, whose Q is `qs`. */
  function HpShuntLAbsorbed(rp: real, w: real, q: real, qs: real, x: real): Value
    requires w > 0.0 && (x != 0.0 ==> qs != 0.0)
  {
    if x != 0.0 then Absorb(HpShuntL(rp, w, q), ParallelInductance(qs, x, w)) else HpShuntL(rp, w, q)
  }

  /** `-1 / (w x)`: the capacitance whose reactance is `x`. */
  function CapOfReactance(w: real, x: real): real
    requires w > 0.0 && x != 0.0
  {
    -1.0 / (w * x)
  }

  /** `(1 + qs^2) x / (w qs^2)`: the parallel inductance of a series reactance `x` with Q `qs`. */
  function ParallelInductance(qs: real, x: real, w: real): real
    requires w > 0.0 && qs != 0.0
  {
    (1.0 + qs * qs) * x / (w * (qs * qs))
  }

  /** The low-pass shunt capacitor: the ideal `q / (rp w)` less the `qs / (rp w)` already present. */
  function LpShuntC(q: real, qs: real, rp: real, w: real): real
    requires rp > 0.0 && w > 0.0
  {
    q / (rp * w) - qs / (rp * w)
  }

  /** The low-pass series inductor: the ideal `q r / w` less the `x / w` already present. */
  function LpSeriesL(q: real, r: real, x: real, w: real): real
    requires w != 0.0
  {
    q * r / w - x / w
  }

  /** The negativity filter every L-section ends with. */
  function EllFiltered(c: Value, l: Value, q: Value, cu: Unit, lu: Unit): (r: CL)
    ensures !r.c.IsNegative() && !r.l.IsNegative()
    ensures AnyNegative(c, l) ==> r.c.NaN? && r.l.NaN? && r.q.NaN?
    ensures !AnyNegative(c, l) ==> r.c == c && r.l == l && r.q == q
    ensures Labelled(r.cScale, r.lScale, cu, lu)
  {
    if AnyNegative(c, l) then CL(NaN, NaN, NaN, GetUnit(cu, Farad), GetUnit(lu, Henry))
    else CL(c, l, q, GetUnit(cu, Farad), GetUnit(lu, Henry))
  }

  /** `if c < 0 || l < 0 { c = NaN; l = NaN; q = NaN }`. */
  method VoidNegative2(c: Value, l: Value, q: Value, cu: Unit, lu: Unit) returns (c2: Value, l2: Value, q2: Value)
    ensures CL(c2, l2, q2, GetUnit(cu, Farad), GetUnit(lu, Henry)) == EllFiltered(c, l, q, cu, lu)
  {
    c2, l2, q2 := c, l, q;
    if AnyNegative(c, l) {
      c2, l2, q2 := NaN, NaN, NaN;
    }
  }

  /** What the conjugate shortcut returns. */
  function EllConjugate(zs: Complex, cu: Unit, lu: Unit): CL
    requires zs.re > 0.0
  {
    CL(Num(0.0), Num(0.0), Num(SeriesQ(zs)), GetUnit(cu, Farad), GetUnit(lu, Henry))
  }

  /** What an infeasible match returns. */
  function EllNone(cu: Unit, lu: Unit): CL
  {
    CL(NaN, NaN, NaN, GetUnit(cu, Farad), GetUnit(lu, Henry))
  }

  /**
   * `calc_hp_ell_cl`: a series capacitor, then a shunt inductor across the
   * load.  The capacitor absorbs the source reactance and the inductor the
   * load's, each by series combination, and a part equal to the one it
   * absorbs becomes +inf.
   */
  function HpEllCl(m: Libm, zs: Complex, zl: Complex, w: real, cu: Unit, lu: Unit): (r: CL)
    requires Passive(zs, zl, w) && Scalable(m, cu) && Scalable(m, lu)
    ensures Labelled(r.cScale, r.lScale, cu, lu)
    ensures Conjugate(zs, zl) ==> r == EllConjugate(zs, cu, lu)
    ensures !Conjugate(zs, zl) && zs.re > HpParallelR(zl) ==> r == EllNone(cu, lu)
    ensures !Conjugate(zs, zl) ==> !r.c.IsNegative() && !r.l.IsNegative()
    ensures !Conjugate(zs, zl) && !r.q.NaN? ==> zs.re <= HpParallelR(zl) && r.q == Num(EllQ(m, HpParallelR(zl), zs.re))
    ensures r.q.NaN? ==> r.c.NaN? && r.l.NaN?
  {
    if Conjugate(zs, zl) then EllConjugate(zs, cu, lu)
    else
      var qs := SeriesQ(zl);
      var rp := HpParallelR(zl);
      if zs.re > rp then EllNone(cu, lu)
      else
        var q := EllQ(m, rp, zs.re);
        var c := HpSeriesCAbsorbed(q, w, zs.re, zs.im);
        var l := HpShuntLAbsorbed(rp, w, q, qs, zl.im);
        EllFiltered(ScaleValue(m, c, cu), ScaleValue(m, l, lu), Num(q), cu, lu)
  }

  method CalcHpEllCl(m: Libm, zs: Complex, zl: Complex, w: real, cu: Unit, lu: Unit) returns (r: CL)
    requires Passive(zs, zl, w) && Scalable(m, cu) && Scalable(m, lu)
    ensures r == HpEllCl(m, zs, zl, w, cu, lu)
  {
    var c: Value;
    var l: Value;
    var q: Value;
    if zs.re == zl.re && zs.im == -zl.im {
      c := Num(0.0);
      l := Num(0.0);
      q := Num(SeriesQ(zs));
    } else {
      var qs := SeriesQ(zl);
      var rp := HpParallelR(zl);
      if zs.re > rp {
        c, l, q := NaN, NaN, NaN;
      } else {
        var qv := EllQ(m, rp, zs.re);
        q := Num(qv);
        c := HpSeriesCAbsorbed(qv, w, zs.re, zs.im);
        l := HpShuntLAbsorbed(rp, w, qv, qs, zl.im);
        c := ScaleValue(m, c, cu);
        l := ScaleValue(m, l, lu);
        assert HpEllCl(m, zs, zl, w, cu, lu) == EllFiltered(c, l, q, cu, lu);
        c, l, q := VoidNegative2(c, l, q, cu, lu);
      }
    }
    r := CL(c, l, q, GetUnit(cu, Farad), GetUnit(lu, Henry));
  }

  /**
   * `calc_hp_ell_lc`: a shunt inductor across the source, then a series
   * capacitor.  The capacitor absorbs the load reactance and the inductor
   * the source's.
   */
  function HpEllLc(m: Libm, zs: Complex, zl: Complex, w: real, cu: Unit, lu: Unit): (r: CL)
    requires Passive(zs, zl, w) && Scalable(m, cu) && Scalable(m, lu)
    ensures Labelled(r.cScale, r.lScale, cu, lu)
    ensures Conjugate(zs, zl) ==> r == EllConjugate(zs, cu, lu)
    ensures !Conjugate(zs, zl) && zl.re > HpParallelR(zs) ==> r == EllNone(cu, lu)
    ensures !Conjugate(zs, zl) ==> !r.c.IsNegative() && !r.l.IsNegative()
    ensures !Conjugate(zs, zl) && !r.q.NaN? ==> zl.re <= HpParallelR(zs) && r.q == Num(EllQ(m, HpParallelR(zs), zl.re))
    ensures r.q.NaN? ==> r.c.NaN? && r.l.NaN?
  {
    if Conjugate(zs, zl) then EllConjugate(zs, cu, lu)
    else
      var qs := SeriesQ(zs);
      var rp := HpParallelR(zs);
      var rs := zl.re + 0.0;
      if rs > rp then EllNone(cu, lu)
      else
        var q := EllQ(m, rp, rs);
        var c := HpSeriesCAbsorbed(q, w, rs, zl.im);
        var l := HpShuntLAbsorbed(rp, w, q, qs, zs.im);
        EllFiltered(ScaleValue(m, c, cu), ScaleValue(m, l, lu), Num(q), cu, lu)
  }

  method CalcHpEllLc(m: Libm, zs: Complex, zl: Complex, w: real, cu: Unit, lu: Unit) returns (r: CL)
    requires Passive(zs, zl, w) && Scalable(m, cu) && Scalable(m, lu)
    ensures r == HpEllLc(m, zs, zl, w, cu, lu)
  {
    var c: Value;
    var l: Value;
    var q: Value;
    if zs.re == zl.re && zs.im == -zl.im {
      c := Num(0.0);
      l := Num(0.0);
      q := Num(SeriesQ(zs));
    } else {
      var qs := SeriesQ(zs);
      var rp := HpParallelR(zs);
      var rs := zl.re + 0.0;
      if rs > rp {
        c, l, q := NaN, NaN, NaN;
      } else {
        var qv := EllQ(m, rp, rs);
        q := Num(qv);
        c := HpSeriesCAbsorbed(qv, w, rs, zl.im);
        l := HpShuntLAbsorbed(rp, w, qv, qs, zs.im);
        c := ScaleValue(m, c, cu);
        l := ScaleValue(m, l, lu);
        assert HpEllLc(m, zs, zl, w, cu, lu) == EllFiltered(c, l, q, cu, lu);
        c, l, q := VoidNegative2(c, l, q, cu, lu);
      }
    }
    r := CL(c, l, q, GetUnit(cu, Farad), GetUnit(lu, Henry));
  }

  /**
   * `calc_lp_ell_cl`: a shunt capacitor across the source, then a series
   * inductor; the existing reactances are absorbed by subtraction.
   */
  function LpEllCl(m: Libm, zs: Complex, zl: Complex, w: real, cu: Unit, lu: Unit): (r: CL)
    requires Passive(zs, zl, w) && Scalable(m, cu) && Scalable(m, lu)
    ensures Labelled(r.cScale, r.lScale, cu, lu)
    ensures Conjugate(zs, zl) ==> r == EllConjugate(zs, cu, lu)
    ensures !Conjugate(zs, zl) && zl.re > LpParallelR(zs) ==> r == EllNone(cu, lu)
    ensures !Conjugate(zs, zl) ==> !r.c.IsNegative() && !r.l.IsNegative()
    ensures !Conjugate(zs, zl) ==> !r.c.PosInf? && !r.l.PosInf?
    ensures !Conjugate(zs, zl) && !r.q.NaN? ==> zl.re <= LpParallelR(zs) && r.q == Num(EllQ(m, LpParallelR(zs), zl.re))
    ensures r.q.NaN? ==> r.c.NaN? && r.l.NaN?
  {
    if Conjugate(zs, zl) then EllConjugate(zs, cu, lu)
    else
      var qs := -SeriesQ(zs);
      var rp := LpParallelR(zs);
      if zl.re > rp then EllNone(cu, lu)
      else
        var q := EllQ(m, rp, zl.re);
        var c := LpShuntC(q, qs, rp, w);
        var l := LpSeriesL(q, zl.re, zl.im, w);
        EllFiltered(Num(ScaleVal(m, c, cu)), Num(ScaleVal(m, l, lu)), Num(q), cu, lu)
  }

  method CalcLpEllCl(m: Libm, zs: Complex, zl: Complex, w: real, cu: Unit, lu: Unit) returns (r: CL)
    requires Passive(zs, zl, w) && Scalable(m, cu) && Scalable(m, lu)
    ensures r == LpEllCl(m, zs, zl, w, cu, lu)
  {
    var c: Value;
    var l: Value;
    var q: Value;
    if zs.re == zl.re && zs.im == -zl.im {
      c := Num(0.0);
      l := Num(0.0);
      q := Num(SeriesQ(zs));
    } else {
      var qs := -SeriesQ(zs);
      var rp := LpParallelR(zs);
      if zl.re > rp {
        c, l, q := NaN, NaN, NaN;
      } else {
        var qv := EllQ(m, rp, zl.re);
        q := Num(qv);
        var cv := LpShuntC(qv, qs, rp, w);
        var lv := LpSeriesL(qv, zl.re, zl.im, w);
        c := Num(ScaleVal(m, cv, cu));
        l := Num(ScaleVal(m, lv, lu));
        assert LpEllCl(m, zs, zl, w, cu, lu) == EllFiltered(c, l, q, cu, lu);
        c, l, q := VoidNegative2(c, l, q, cu, lu);
      }
    }
    r := CL(c, l, q, GetUnit(cu, Farad), GetUnit(lu, Henry));
  }

  /**
   * `calc_lp_ell_lc`: a series inductor, then a shunt capacitor across the
   * load; the existing reactances are absorbed by subtraction.
   */
  function LpEllLc(m: Libm, zs: Complex, zl: Complex, w: real, cu: Unit, lu: Unit): (r: CL)
    requires Passive(zs, zl, w) && Scalable(m, cu) && Scalable(m, lu)
    ensures Labelled(r.cScale, r.lScale, cu, lu)
    ensures Conjugate(zs, zl) ==> r == EllConjugate(zs, cu, lu)
    ensures !Conjugate(zs, zl) && zs.re > LpParallelR(zl) ==> r == EllNone(cu, lu)
    ensures !Conjugate(zs, zl) ==> !r.c.IsNegative() && !r.l.IsNegative()
    ensures !Conjugate(zs, zl) ==> !r.c.PosInf? && !r.l.PosInf?
    ensures !Conjugate(zs, zl) && !r.q.NaN? ==> zs.re <= LpParallelR(zl) && r.q == Num(EllQ(m, LpParallelR(zl), zs.re))
    ensures r.q.NaN? ==> r.c.NaN? && r.l.NaN?
  {
    if Conjugate(zs, zl) then EllConjugate(zs, cu, lu)
    else
      var qs := -SeriesQ(zl);
      var rp := LpParallelR(zl);
      if zs.re > rp then EllNone(cu, lu)
      else
        var q := EllQ(m, rp, zs.re);
        var c := LpShuntC(q, qs, rp, w);
        var l := LpSeriesL(q, zs.re, zs.im, w);
        EllFiltered(Num(ScaleVal(m, c, cu)), Num(ScaleVal(m, l, lu)), Num(q), cu, lu)
  }

  method CalcLpEllLc(m: Libm, zs: Complex, zl: Complex, w: real, cu: Unit, lu: Unit) returns (r: CL)
    requires Passive(zs, zl, w) && Scalable(m, cu) && Scalable(m, lu)
    ensures r == LpEllLc(m, zs, zl, w, cu, lu)
  {
    var c: Value;
    var l: Value;
    var q: Value;
    if zs.re == zl.re && zs.im == -zl.im {
      c := Num(0.0);
      l := Num(0.0);
      q := Num(SeriesQ(zs));
    } else {
      var qs := -SeriesQ(zl);
      var rp := LpParallelR(zl);
      if zs.re > rp {
        c, l, q := NaN, NaN, NaN;
      } else {
        var qv := EllQ(m, rp, zs.re);
        q := Num(qv);
        var cv := LpShuntC(qv, qs, rp, w);
        var lv := LpSeriesL(qv, zs.re, zs.im, w);
        c := Num(ScaleVal(m, cv, cu));
        l := Num(ScaleVal(m, lv, lu));
        assert LpEllLc(m, zs, zl, w, cu, lu) == EllFiltered(c, l, q, cu, lu);
        c, l, q := VoidNegative2(c, l, q, cu, lu);
      }
    }
    r := CL(c, l, q, GetUnit(cu, Farad), GetUnit(lu, Henry));
  }

  /** Outside the conjugate shortcut, the `lc` high-pass form is the `cl` form with the ports swapped. */
  lemma {:induction false} HpEllPortSwap(m: Libm, zs: Complex, zl: Complex, w: real, cu: Unit, lu: Unit)
    requires Passive(zs, zl, w) && Scalable(m, cu) && Scalable(m, lu) && !Conjugate(zs, zl)
    ensures HpEllLc(m, zl, zs, w, cu, lu) == HpEllCl(m, zs, zl, w, cu, lu)
  {
    assert zs.re + 0.0 == zs.re;
  }

  /** Outside the conjugate shortcut, the `lc` low-pass form is the `cl` form with the ports swapped. */
  lemma {:induction false} LpEllPortSwap(m: Libm, zs: Complex, zl: Complex, w: real, cu: Unit, lu: Unit)
    requires Passive(zs, zl, w) && Scalable(m, cu) && Scalable(m, lu) && !Conjugate(zs, zl)
    ensures LpEllLc(m, zl, zs, w, cu, lu) == LpEllCl(m, zs, zl, w, cu, lu)
  {
  }

  /** In the conjugate shortcut the two ports' forms report opposite Q. */
  lemma ConjugateQFlips(m: Libm, zs: Complex, zl: Complex, w: real, cu: Unit, lu: Unit)
    requires Passive(zs, zl, w) && Scalable(m, cu) && Scalable(m, lu) && Conjugate(zs, zl)
    ensures HpEllLc(m, zl, zs, w, cu, lu).q == Num(-HpEllCl(m, zs, zl, w, cu, lu).q.v)
  {
  }

  /**
   * When the ideal series capacitor equals the one the source reactance
   * needs, it becomes +inf: it is kept, unless the inductor voids the pair.
   */
  lemma {:induction false} HpEllClIdealCapacitor(m: Libm, zs: Complex, zl: Complex, w: real, cu: Unit, lu: Unit)
    requires Passive(zs, zl, w) && Scalable(m, cu) && Scalable(m, lu) && UnitScale(m, cu) > 0.0
    requires !Conjugate(zs, zl) && zs.re <= HpParallelR(zl) && zs.im != 0.0
    requires HpSeriesC(EllQ(m, HpParallelR(zl), zs.re), w, zs.re) == Num(CapOfReactance(w, zs.im))
    ensures HpEllCl(m, zs, zl, w, cu, lu).c == PosInf
         || HpEllCl(m, zs, zl, w, cu, lu) == EllNone(cu, lu)
  {
  }
}
