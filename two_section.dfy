/**
 * What the two-section solvers of `matching/hp.rs`, `matching/lp.rs` and
 * `matching/bp.rs` share.  Each steps the parallel resistance `rp` of one
 * port down to the virtual resistance `rv = sqrt(rp r)`, where `r` is the
 * other port's resistance, through two L-sections of Q `qs = sqrt(rp / rv - 1)`
 * and `ql = sqrt(rv / r - 1)`.  When `rp <= rv` there is no such network and
 * all four parts are NaN; otherwise the parts are scaled, and one negative
 * part makes all four NaN.
 *
 * These solvers divide by the square roots they take, so they are modelled
 * for a library whose `sqrt` is the square root (`SqrtLaw`).
 */
module TwoSections {
  import opened Numeric
  import opened Units
  import opened Networks
  import opened Ells

  /** What an infeasible two-section match returns. */
  function CcllNone(cu: Unit, lu: Unit): CCLL
  {
    CCLL(NaN, NaN, NaN, NaN, GetUnit(cu, Farad), GetUnit(lu, Henry))
  }

  /** The negativity filter every two-section solver ends with. */
  function CcllFiltered(cs: Value, cl: Value, ls: Value, ll: Value, cu: Unit, lu: Unit): (r: CCLL)
    ensures Labelled(r.cScale, r.lScale, cu, lu)
    ensures !AnyNegative4(r.cs, r.cl, r.ls, r.ll)
    ensures AnyNegative4(cs, cl, ls, ll) ==> r == CcllNone(cu, lu)
    ensures !AnyNegative4(cs, cl, ls, ll) ==> r.cs == cs && r.cl == cl && r.ls == ls && r.ll == ll
    ensures !cs.NaN? && !cl.NaN? && !ls.NaN? && !ll.NaN? ==> AllOrNoneNaN4(r.cs, r.cl, r.ls, r.ll)
  {
    if AnyNegative4(cs, cl, ls, ll) then CcllNone(cu, lu)
    else CCLL(cs, cl, ls, ll, GetUnit(cu, Farad), GetUnit(lu, Henry))
  }

  /** `if cs < 0 || cl < 0 || ls < 0 || ll < 0 { all four = NaN }` and the result record. */
  method VoidNegative4(cs: Value, cl: Value, ls: Value, ll: Value, cu: Unit, lu: Unit) returns (r: CCLL)
    ensures r == CcllFiltered(cs, cl, ls, ll, cu, lu)
  {
    var cs2, cl2, ls2, ll2 := cs, cl, ls, ll;
    if AnyNegative4(cs, cl, ls, ll) {
      cs2, cl2, ls2, ll2 := NaN, NaN, NaN, NaN;
    }
    r := CCLL(cs2, cl2, ls2, ll2, GetUnit(cu, Farad), GetUnit(lu, Henry));
  }

  /**
   * `(rp * r).sqrt()`: the virtual resistance between the two sections.  It
   * lies strictly between `r` and `rp` exactly when `rp > r`, so the
   * feasibility test `rp <= rv` is the test `rp <= r`.
   */
  function Rv(m: Libm, rp: real, r: real): (rv: real)
    requires SqrtLaw(m) && rp > 0.0 && r > 0.0
    ensures 0.0 < rv && rv * rv == rp * r
    ensures rp <= rv <==> rp <= r
    ensures rp > r ==> r < rv < rp
  {
    MulPos(rp, r);
    SqrtPositive(m, rp * r);
    var rv := Sqrt(m, rp * r);
    SquareMonotone(rv, rp);
    SquareMonotone(r, rv);
    ProductOrder(rp, r);
    rv
  }

  /** With `rp, r > 0`: `r^2 < rp r` and `rp r < rp^2` exactly when `r < rp`. */
  lemma ProductOrder(rp: real, r: real)
    requires rp > 0.0 && r > 0.0
    ensures r < rp <==> r * r < rp * r
    ensures r < rp <==> rp * r < rp * rp
  {
    if r < rp {
      MulPos(rp - r, r);
      MulPos(rp - r, rp);
    } else {
      MulNonneg(r - rp, r);
      MulNonneg(r - rp, rp);
    }
  }

  /**
   * On the feasible branch both square roots are taken of positive numbers,
   * so both section Qs are positive.
   */
  lemma {:induction false} SqrtArgumentsPositive(m: Libm, rp: real, r: real)
    requires SqrtLaw(m) && rp > 0.0 && r > 0.0 && Rv(m, rp, r) < rp
    ensures rp / Rv(m, rp, r) - 1.0 > 0.0 && Rv(m, rp, r) / r - 1.0 > 0.0
    ensures EllQ(m, rp, Rv(m, rp, r)) > 0.0 && EllQ(m, Rv(m, rp, r), r) > 0.0
  {
    var rv := Rv(m, rp, r);
    RatioAboveOne(rp, rv);
    RatioAboveOne(rv, r);
    SqrtPositive(m, rp / rv - 1.0);
    SqrtPositive(m, rv / r - 1.0);
  }

  /** `a / b > 1` when `0 < b < a`. */
  lemma RatioAboveOne(a: real, b: real)
    requires 0.0 < b < a
    ensures a / b - 1.0 > 0.0
  {
    var x := a / b - 1.0;
    assert x * b == a - b;
    if x <= 0.0 {
      MulNonneg(-x, b);
    }
  }

  /** A section Q on the feasible branch: `sqrt(a / b - 1)` with `0 < b < a`. */
  function SectionQ(m: Libm, a: real, b: real): (q: real)
    requires SqrtLaw(m) && 0.0 < b < a
    ensures q > 0.0 && q * q == a / b - 1.0
  {
    RatioAboveOne(a, b);
    SqrtPositive(m, a / b - 1.0);
    EllQ(m, a, b)
  }

  /**
   * The source-side shunt inductor of the high-pass and first band-pass
   * forms: `rp / (w qs)`, which absorbs the port's own parallel inductance
   * `rp / (w q)` when the port reactance `x` is not zero.
   */
  function ShuntLAbsorbed(rp: real, w: real, qs: real, q: real, x: real): (r: Value)
    requires rp > 0.0 && w > 0.0 && qs > 0.0 && (x != 0.0 ==> q != 0.0)
    ensures !r.NaN? && !r.NegInf?
    ensures x == 0.0 ==> r == Num(rp / (w * qs))
    ensures x != 0.0 && q == qs ==> r == PosInf
  {
    MulPos(w, qs);
    if x != 0.0 then
      MulNonZero(w, q);
      Absorb(HpShuntL(rp, w, qs), rp / (w * q))
    else HpShuntL(rp, w, qs)
  }

  /** A series capacitor `1 / (q w r)` with positive factors: finite and positive. */
  lemma SeriesCPositive(q: real, w: real, r: real)
    requires q > 0.0 && w > 0.0 && r > 0.0
    ensures HpSeriesC(q, w, r) == Num(1.0 / (q * w * r)) && 1.0 / (q * w * r) > 0.0
  {
    MulPos(q, w);
    MulPos(q * w, r);
  }

  /** The load-side series capacitor once it has absorbed the port reactance: never NaN. */
  lemma SeriesCAbsorbedNotNaN(q: real, w: real, r: real, x: real)
    requires q > 0.0 && w > 0.0 && r > 0.0
    ensures !HpSeriesCAbsorbed(q, w, r, x).NaN? && !HpSeriesCAbsorbed(q, w, r, x).NegInf?
  {
    SeriesCPositive(q, w, r);
  }

  /**
   * When the section Q is the port's own `-x / r`, the capacitor and the
   * port's `-1 / (w x)` coincide, and the absorbed capacitor is +inf.
   */
  lemma {:induction false} SeriesCCoincides(q: real, w: real, r: real, x: real)
    requires q > 0.0 && w > 0.0 && r > 0.0 && x != 0.0 && q == -x / r
    ensures HpSeriesCAbsorbed(q, w, r, x) == PosInf
  {
    SeriesCPositive(q, w, r);
    assert q * r == -x;
    assert q * w * r == -(w * x);
  }

  /** A shunt inductor `rv / (w q)` with positive factors: finite and positive. */
  lemma ShuntLFinite(rv: real, w: real, q: real)
    requires rv > 0.0 && w > 0.0 && q > 0.0
    ensures HpShuntL(rv, w, q) == Num(rv / (w * q)) && rv / (w * q) > 0.0
  {
    MulPos(w, q);
  }

  /** `q r / w`: the series inductor of an L-section of Q `q` at resistance `r`. */
  function SeriesLOfQ(q: real, r: real, w: real): (l: real)
    requires q >= 0.0 && r > 0.0 && w > 0.0
    ensures l >= 0.0
    ensures q > 0.0 ==> l > 0.0
  {
    MulNonneg(q, r);
    if q > 0.0 then
      MulPos(q, r);
      q * r / w
    else q * r / w
  }

  /** `q / (w r)`: the shunt capacitor of an L-section of Q `q` at resistance `r`. */
  function ShuntCOfQ(q: real, r: real, w: real): (c: real)
    requires q >= 0.0 && r > 0.0 && w > 0.0
    ensures c >= 0.0
    ensures q > 0.0 ==> c > 0.0
  {
    MulPos(w, r);
    q / (w * r)
  }

  /** Whether every part of a result is NaN. */
  predicate AllNaN(r: CCLL)
  {
    r.cs.NaN? && r.cl.NaN? && r.ls.NaN? && r.ll.NaN?
  }

  /** Whether no part of a result is +inf. */
  predicate NoInfinity(r: CCLL)
  {
    !r.cs.PosInf? && !r.cl.PosInf? && !r.ls.PosInf? && !r.ll.PosInf?
  }
}
