/**
 * `matching/ell_w_q.rs`: the four L-section solvers for a target Q.  Each
 * takes the conjugate shortcut, or solves a quadratic in the parallel
 * reactance `xp` and the series reactance `xc`, whose discriminant `s^2` can
 * be negative (then every part is NaN), turns them into `l = xp / w` and
 * `c = -1 / (w xc)`, scales, and voids `c`, `l` and `q_net` when a part comes
 * out negative.  The target `q` is echoed, and every solution is reported as
 * solution 1.
 */
module EllsWithQ {
  import opened Numeric
  import opened Units
  import opened Networks
  import opened Ells

  /** `(rp / r - 1).sqrt()`: the Q of the L-section from `rp` down to `r`, NaN when `rp < r`. */
  function NetQ(m: Libm, rp: real, r: real): (v: Value)
    requires r > 0.0
    ensures v.NaN? <==> rp < r
    ensures rp >= r ==> v == Num(EllQ(m, rp, r))
  {
    if rp < r then
      assert rp / r - 1.0 < 0.0 by { assert rp / r < 1.0; }
      SqrtV(m, rp / r - 1.0)
    else
      RatioAtLeastOne(rp, r);
      SqrtV(m, rp / r - 1.0)
  }

  /** `(k s + b) / d`: one of the two closed forms around the square root `s` of the discriminant. */
  function RootQuot(k: real, s: Value, b: real, d: real): (r: Value)
    ensures s.NaN? ==> r.NaN?
  {
    DivValue(AddR(MulValue(k, s), b), d)
  }

  /** What the conjugate shortcut returns: solution 0. */
  function WqConjugate(zs: Complex, q: real, cu: Unit, lu: Unit): CLQ
    requires zs.re > 0.0
  {
    CLQ(Num(0.0), Num(0.0), q, Num(SeriesQ(zs)), 0, GetUnit(cu, Farad), GetUnit(lu, Henry))
  }

  /** The negativity filter: it voids `c`, `l` and `q_net`, and keeps `q` and `sol`. */
  function WqFiltered(c: Value, l: Value, q: real, qNet: Value, cu: Unit, lu: Unit): (r: CLQ)
    ensures r.q == q && r.sol == 1 && Labelled(r.cScale, r.lScale, cu, lu)
    ensures !r.c.IsNegative() && !r.l.IsNegative()
    ensures AnyNegative(c, l) ==> r.c.NaN? && r.l.NaN? && r.qNet.NaN?
    ensures !AnyNegative(c, l) ==> r.c == c && r.l == l && r.qNet == qNet
  {
    if AnyNegative(c, l) then CLQ(NaN, NaN, q, NaN, 1, GetUnit(cu, Farad), GetUnit(lu, Henry))
    else CLQ(c, l, q, qNet, 1, GetUnit(cu, Farad), GetUnit(lu, Henry))
  }

  /** `if l < 0 || c < 0 { l = NaN; c = NaN; q_net = NaN }` and the result record. */
  method VoidNegative(c: Value, l: Value, q: real, qNet: Value, sol: nat, cu: Unit, lu: Unit) returns (r: CLQ)
    requires sol == 1
    ensures r == WqFiltered(c, l, q, qNet, cu, lu)
  {
    var c2, l2, qNet2 := c, l, qNet;
    if l.IsNegative() || c.IsNegative() {
      l2, c2, qNet2 := NaN, NaN, NaN;
    }
    r := CLQ(c2, l2, q, qNet2, sol, GetUnit(cu, Farad), GetUnit(lu, Henry));
  }

  /**
   * The tail every solver shares: `l = xp / w` and `c = -1 / (w xc)`, scaled
   * and filtered.  A reactance with no real value gives a part with none.
   */
  function WqFinish(m: Libm, q: real, qNet: Value, xp: Value, xc: Value, w: real, cu: Unit, lu: Unit): (r: CLQ)
    requires w > 0.0 && Scalable(m, cu) && Scalable(m, lu)
    ensures r.q == q && r.sol == 1 && Labelled(r.cScale, r.lScale, cu, lu)
    ensures !r.c.IsNegative() && !r.l.IsNegative()
    ensures xp.NaN? ==> r.l.NaN?
    ensures xc.NaN? ==> r.c.NaN?
    ensures r.qNet == qNet || r.qNet.NaN?
  {
    var l := DivValue(xp, w);
    var c := RecipValue(-1.0, MulValue(w, xc));
    WqFiltered(ScaleValue(m, c, cu), ScaleValue(m, l, lu), q, qNet, cu, lu)
  }

  // calc_hp_ell_cl_w_q

  function HpClDisc(q: real, rs: real, rl: real, xl: real): real
  {
    xl * xl * xl * xl - 4.0 * q * rs * (xl * xl * xl)
    + (-(4.0 * (rs * rs)) + 4.0 * (q * q) * rl * rs + 2.0 * (rl * rl)) * (xl * xl)
    + (8.0 * q * rl * (rs * rs) - 4.0 * q * (rl * rl) * rs) * xl
    - 4.0 * (q * q) * (rl * rl) * (rs * rs)
    + 4.0 * (q * q) * (rl * rl * rl) * rs
    + rl * rl * rl * rl
  }

  function HpClXp(q: real, s: Value, rs: real, rl: real, xl: real): Value
  {
    NegValue(RootQuot(q, s, -(q * (xl * xl)) + 2.0 * (q * q) * rs * xl + 2.0 * q * rl * rs - q * (rl * rl),
                      (2.0 * (q * q) + 2.0) * rs + (-(2.0 * (q * q)) - 2.0) * rl))
  }

  function HpClXc(s: Value, q: real, rs: real, xs: real, rl: real, xl: real): Value
  {
    RootQuot(1.0, s, (2.0 * q * rl - 2.0 * xl) * xs - xl * xl - rl * rl, 2.0 * xl - 2.0 * q * rl)
  }

  /**
   * `q_net` of `calc_hp_ell_cl_w_q` as the source computes it: the
   * source's Q `zs.im / zs.re` with the load's resistance.
   */
  function HpClNetQAsWritten(m: Libm, zs: Complex, zl: Complex): Value
    requires zs.re > 0.0
  {
    NetQ(m, (1.0 + SeriesQ(zs) * SeriesQ(zs)) * zl.re, zs.re)
  }

  /** `q_net` of the series-capacitor high-pass form, from the load's parallel resistance as `calc_hp_ell_cl` has it. */
  function HpClNetQ(m: Libm, zs: Complex, zl: Complex): Value
    requires zs.re > 0.0 && zl.re > 0.0
  {
    NetQ(m, HpParallelR(zl), zs.re)
  }

  function HpEllClWQ(m: Libm, zs: Complex, zl: Complex, q: real, w: real, cu: Unit, lu: Unit): (r: CLQ)
    requires Passive(zs, zl, w) && Scalable(m, cu) && Scalable(m, lu)
    ensures r.q == q && Labelled(r.cScale, r.lScale, cu, lu)
    ensures Conjugate(zs, zl) ==> r == WqConjugate(zs, q, cu, lu)
    ensures !Conjugate(zs, zl) ==> r.sol == 1 && !r.c.IsNegative() && !r.l.IsNegative()
    ensures !Conjugate(zs, zl) ==> r.qNet == HpClNetQ(m, zs, zl) || r.qNet.NaN?
    ensures !Conjugate(zs, zl) && HpClDisc(q, zs.re, zl.re, zl.im) < 0.0 ==> r.c.NaN? && r.l.NaN?
  {
    if Conjugate(zs, zl) then WqConjugate(zs, q, cu, lu)
    else
      var s := SqrtV(m, HpClDisc(q, zs.re, zl.re, zl.im));
      WqFinish(m, q, HpClNetQ(m, zs, zl), HpClXp(q, s, zs.re, zl.re, zl.im),
               HpClXc(s, q, zs.re, zs.im, zl.re, zl.im), w, cu, lu)
  }

  method CalcHpEllClWQ(m: Libm, zs: Complex, zl: Complex, q: real, w: real, cu: Unit, lu: Unit) returns (r: CLQ)
    requires Passive(zs, zl, w) && Scalable(m, cu) && Scalable(m, lu)
    ensures r == HpEllClWQ(m, zs, zl, q, w, cu, lu)
  {
    var c: Value;
    var l: Value;
    var qNet: Value;
    var sol: nat := 0;
    if zs.re == zl.re && zs.im == -zl.im {
      c := Num(0.0);
      l := Num(0.0);
      qNet := Num(SeriesQ(zs));
      r := CLQ(c, l, q, qNet, sol, GetUnit(cu, Farad), GetUnit(lu, Henry));
    } else {
      qNet := HpClNetQ(m, zs, zl);
      var s := SqrtV(m, HpClDisc(q, zs.re, zl.re, zl.im));
      var xp := HpClXp(q, s, zs.re, zl.re, zl.im);
      var xc := HpClXc(s, q, zs.re, zs.im, zl.re, zl.im);
      l := DivValue(xp, w);
      c := RecipValue(-1.0, MulValue(w, xc));
      sol := 1;
      c := ScaleValue(m, c, cu);
      l := ScaleValue(m, l, lu);
      assert HpEllClWQ(m, zs, zl, q, w, cu, lu) == WqFinish(m, q, qNet, xp, xc, w, cu, lu);
      r := VoidNegative(c, l, q, qNet, sol, cu, lu);
    }
  }

  // calc_hp_ell_lc_w_q

  function HpLcDisc(q: real, rs: real, xs: real, rl: real): real
  {
    xs * xs * xs * xs - 4.0 * q * rl * (xs * xs * xs)
    + (2.0 * (rs * rs) + 4.0 * (q * q) * rl * rs - 4.0 * (rl * rl)) * (xs * xs)
    + (8.0 * q * (rl * rl) * rs - 4.0 * q * rl * (rs * rs)) * xs
    + rs * rs * rs * rs
    + 4.0 * (q * q) * rl * (rs * rs * rs)
    - 4.0 * (q * q) * (rl * rl) * (rs * rs)
  }

  function HpLcXp(q: real, s: Value, rs: real, xs: real, rl: real): Value
  {
    RootQuot(q, s, -(q * (xs * xs)) + 2.0 * (q * q) * rl * xs - q * (rs * rs) + 2.0 * q * rl * rs,
             (2.0 * (q * q) + 2.0) * rs + (-(2.0 * (q * q)) - 2.0) * rl)
  }

  function HpLcXc(s: Value, q: real, rs: real, xs: real, xl: real): Value
  {
    RootQuot(1.0, s, -(xs * xs) - 2.0 * xl * xs + 2.0 * q * rs * xl - rs * rs, 2.0 * xs - 2.0 * q * rs)
  }

  /** `q_net` of `calc_hp_ell_lc_w_q` as the source computes it: the source's parallel resistance over its own resistance. */
  function HpLcNetQAsWritten(m: Libm, zs: Complex, zl: Complex): Value
    requires zs.re > 0.0
  {
    NetQ(m, HpParallelR(zs), zs.re)
  }

  /** `q_net` of the series-capacitor-at-the-load high-pass form, over the load's resistance as `calc_hp_ell_lc` has it. */
  function HpLcNetQ(m: Libm, zs: Complex, zl: Complex): Value
    requires zs.re > 0.0 && zl.re > 0.0
  {
    NetQ(m, HpParallelR(zs), zl.re)
  }

  function HpEllLcWQ(m: Libm, zs: Complex, zl: Complex, q: real, w: real, cu: Unit, lu: Unit): (r: CLQ)
    requires Passive(zs, zl, w) && Scalable(m, cu) && Scalable(m, lu)
    ensures r.q == q && Labelled(r.cScale, r.lScale, cu, lu)
    ensures Conjugate(zs, zl) ==> r == WqConjugate(zs, q, cu, lu)
    ensures !Conjugate(zs, zl) ==> r.sol == 1 && !r.c.IsNegative() && !r.l.IsNegative()
    ensures !Conjugate(zs, zl) ==> r.qNet == HpLcNetQ(m, zs, zl) || r.qNet.NaN?
    ensures !Conjugate(zs, zl) && HpLcDisc(q, zs.re, zs.im, zl.re) < 0.0 ==> r.c.NaN? && r.l.NaN?
  {
    if Conjugate(zs, zl) then WqConjugate(zs, q, cu, lu)
    else
      var s := SqrtV(m, HpLcDisc(q, zs.re, zs.im, zl.re));
      WqFinish(m, q, HpLcNetQ(m, zs, zl), HpLcXp(q, s, zs.re, zs.im, zl.re),
               HpLcXc(s, q, zs.re, zs.im, zl.im), w, cu, lu)
  }

  method CalcHpEllLcWQ(m: Libm, zs: Complex, zl: Complex, q: real, w: real, cu: Unit, lu: Unit) returns (r: CLQ)
    requires Passive(zs, zl, w) && Scalable(m, cu) && Scalable(m, lu)
    ensures r == HpEllLcWQ(m, zs, zl, q, w, cu, lu)
  {
    var c: Value;
    var l: Value;
    var qNet: Value;
    var sol: nat := 0;
    if zs.re == zl.re && zs.im == -zl.im {
      c := Num(0.0);
      l := Num(0.0);
      qNet := Num(SeriesQ(zs));
      r := CLQ(c, l, q, qNet, sol, GetUnit(cu, Farad), GetUnit(lu, Henry));
    } else {
      qNet := HpLcNetQ(m, zs, zl);
      var s := SqrtV(m, HpLcDisc(q, zs.re, zs.im, zl.re));
      var xp := HpLcXp(q, s, zs.re, zs.im, zl.re);
      var xc := HpLcXc(s, q, zs.re, zs.im, zl.im);
      l := DivValue(xp, w);
      c := RecipValue(-1.0, MulValue(w, xc));
      sol := 1;
      c := ScaleValue(m, c, cu);
      l := ScaleValue(m, l, lu);
      assert HpEllLcWQ(m, zs, zl, q, w, cu, lu) == WqFinish(m, q, qNet, xp, xc, w, cu, lu);
      r := VoidNegative(c, l, q, qNet, sol, cu, lu);
    }
  }

  // calc_lp_ell_cl_w_q

  function LpClDisc(q: real, rs: real, xs: real, rl: real, xl: real): real
  {
    xs * xs * xs * xs
    + (4.0 * q * rs * xl + 2.0 * (rs * rs) + 4.0 * (q * q) * rl * rs) * (xs * xs)
    - 4.0 * (rs * rs) * (xl * xl)
    + (4.0 * q * (rs * rs * rs) - 8.0 * q * rl * (rs * rs)) * xl
    + rs * rs * rs * rs
    + 4.0 * (q * q) * rl * (rs * rs * rs)
    - 4.0 * (q * q) * (rl * rl) * (rs * rs)
  }

  function LpClXp(q: real, s: Value, rs: real, xs: real, rl: real, xl: real): Value
  {
    RootQuot(q, s, -(q * (xs * xs)) - 2.0 * (q * q) * rs * xl - q * (rs * rs) + 2.0 * q * rl * rs,
             (2.0 * (q * q) + 2.0) * rs)
  }

  function LpClXc(s: Value, q: real, rs: real, xs: real, rl: real, xl: real): Value
  {
    RootQuot(1.0, s, -(xs * xs) + (-(2.0 * xl) - 2.0 * q * rl) * xs - rs * rs,
             2.0 * xs + 2.0 * xl - 2.0 * q * rs + 2.0 * q * rl)
  }

  /** `q_net` of the shunt-capacitor low-pass form: the source's parallel resistance over the load's resistance. */
  function LpClNetQ(m: Libm, zs: Complex, zl: Complex): Value
    requires zs.re > 0.0 && zl.re > 0.0
  {
    NetQ(m, LpParallelR(zs), zl.re)
  }

  function LpEllClWQ(m: Libm, zs: Complex, zl: Complex, q: real, w: real, cu: Unit, lu: Unit): (r: CLQ)
    requires Passive(zs, zl, w) && Scalable(m, cu) && Scalable(m, lu)
    ensures r.q == q && Labelled(r.cScale, r.lScale, cu, lu)
    ensures Conjugate(zs, zl) ==> r == WqConjugate(zs, q, cu, lu)
    ensures !Conjugate(zs, zl) ==> r.sol == 1 && !r.c.IsNegative() && !r.l.IsNegative()
    ensures !Conjugate(zs, zl) ==> r.qNet == LpClNetQ(m, zs, zl) || r.qNet.NaN?
    ensures !Conjugate(zs, zl) && LpClDisc(q, zs.re, zs.im, zl.re, zl.im) < 0.0 ==> r.c.NaN? && r.l.NaN?
  {
    if Conjugate(zs, zl) then WqConjugate(zs, q, cu, lu)
    else
      var s := SqrtV(m, LpClDisc(q, zs.re, zs.im, zl.re, zl.im));
      WqFinish(m, q, LpClNetQ(m, zs, zl), LpClXp(q, s, zs.re, zs.im, zl.re, zl.im),
               LpClXc(s, q, zs.re, zs.im, zl.re, zl.im), w, cu, lu)
  }

  method CalcLpEllClWQ(m: Libm, zs: Complex, zl: Complex, q: real, w: real, cu: Unit, lu: Unit) returns (r: CLQ)
    requires Passive(zs, zl, w) && Scalable(m, cu) && Scalable(m, lu)
    ensures r == LpEllClWQ(m, zs, zl, q, w, cu, lu)
  {
    var c: Value;
    var l: Value;
    var qNet: Value;
    var sol: nat := 0;
    if zs.re == zl.re && zs.im == -zl.im {
      c := Num(0.0);
      l := Num(0.0);
      qNet := Num(SeriesQ(zs));
      r := CLQ(c, l, q, qNet, sol, GetUnit(cu, Farad), GetUnit(lu, Henry));
    } else {
      qNet := LpClNetQ(m, zs, zl);
      var s := SqrtV(m, LpClDisc(q, zs.re, zs.im, zl.re, zl.im));
      var xp := LpClXp(q, s, zs.re, zs.im, zl.re, zl.im);
      var xc := LpClXc(s, q, zs.re, zs.im, zl.re, zl.im);
      l := DivValue(xp, w);
      c := RecipValue(-1.0, MulValue(w, xc));
      sol := 1;
      c := ScaleValue(m, c, cu);
      l := ScaleValue(m, l, lu);
      assert LpEllClWQ(m, zs, zl, q, w, cu, lu) == WqFinish(m, q, qNet, xp, xc, w, cu, lu);
      r := VoidNegative(c, l, q, qNet, sol, cu, lu);
    }
  }

  // calc_lp_ell_lc_w_q

  function LpLcDisc(q: real, rs: real, xs: real, rl: real, xl: real): real
  {
    -(4.0 * (rl * rl) * (xs * xs))
    + (4.0 * q * rl * (xl * xl) - 8.0 * q * (rl * rl) * rs + 4.0 * q * (rl * rl * rl)) * xs
    + xl * xl * xl * xl
    + (4.0 * (q * q) * rl * rs + 2.0 * (rl * rl)) * (xl * xl)
    - 4.0 * (q * q) * (rl * rl) * (rs * rs)
    + 4.0 * (q * q) * (rl * rl * rl) * rs
    + rl * rl * rl * rl
  }

  function LpLcXp(q: real, s: Value, rs: real, xs: real, rl: real, xl: real): Value
  {
    NegValue(RootQuot(q, s, 2.0 * (q * q) * rl * xs + q * (xl * xl) - 2.0 * q * rl * rs + q * (rl * rl),
                      (2.0 * (q * q) + 2.0) * rl))
  }

  function LpLcXc(s: Value, q: real, rs: real, xs: real, rl: real, xl: real): Value
  {
    NegValue(RootQuot(1.0, s, 2.0 * xl * xs + xl * xl + 2.0 * q * rs * xl + rl * rl,
                      2.0 * xs + 2.0 * xl + 2.0 * q * rs - 2.0 * q * rl))
  }

  /** `q_net` of the shunt-capacitor-at-the-load low-pass form: the load's parallel resistance over the source's resistance. */
  function LpLcNetQ(m: Libm, zs: Complex, zl: Complex): Value
    requires zs.re > 0.0 && zl.re > 0.0
  {
    NetQ(m, LpParallelR(zl), zs.re)
  }

  function LpEllLcWQ(m: Libm, zs: Complex, zl: Complex, q: real, w: real, cu: Unit, lu: Unit): (r: CLQ)
    requires Passive(zs, zl, w) && Scalable(m, cu) && Scalable(m, lu)
    ensures r.q == q && Labelled(r.cScale, r.lScale, cu, lu)
    ensures Conjugate(zs, zl) ==> r == WqConjugate(zs, q, cu, lu)
    ensures !Conjugate(zs, zl) ==> r.sol == 1 && !r.c.IsNegative() && !r.l.IsNegative()
    ensures !Conjugate(zs, zl) ==> r.qNet == LpLcNetQ(m, zs, zl) || r.qNet.NaN?
    ensures !Conjugate(zs, zl) && LpLcDisc(q, zs.re, zs.im, zl.re, zl.im) < 0.0 ==> r.c.NaN? && r.l.NaN?
  {
    if Conjugate(zs, zl) then WqConjugate(zs, q, cu, lu)
    else
      var s := SqrtV(m, LpLcDisc(q, zs.re, zs.im, zl.re, zl.im));
      WqFinish(m, q, LpLcNetQ(m, zs, zl), LpLcXp(q, s, zs.re, zs.im, zl.re, zl.im),
               LpLcXc(s, q, zs.re, zs.im, zl.re, zl.im), w, cu, lu)
  }

  method CalcLpEllLcWQ(m: Libm, zs: Complex, zl: Complex, q: real, w: real, cu: Unit, lu: Unit) returns (r: CLQ)
    requires Passive(zs, zl, w) && Scalable(m, cu) && Scalable(m, lu)
    ensures r == LpEllLcWQ(m, zs, zl, q, w, cu, lu)
  {
    var c: Value;
    var l: Value;
    var qNet: Value;
    var sol: nat := 0;
    if zs.re == zl.re && zs.im == -zl.im {
      c := Num(0.0);
      l := Num(0.0);
      qNet := Num(SeriesQ(zs));
      r := CLQ(c, l, q, qNet, sol, GetUnit(cu, Farad), GetUnit(lu, Henry));
    } else {
      qNet := LpLcNetQ(m, zs, zl);
      var s := SqrtV(m, LpLcDisc(q, zs.re, zs.im, zl.re, zl.im));
      var xp := LpLcXp(q, s, zs.re, zs.im, zl.re, zl.im);
      var xc := LpLcXc(s, q, zs.re, zs.im, zl.re, zl.im);
      l := DivValue(xp, w);
      c := RecipValue(-1.0, MulValue(w, xc));
      sol := 1;
      c := ScaleValue(m, c, cu);
      l := ScaleValue(m, l, lu);
      assert LpEllLcWQ(m, zs, zl, q, w, cu, lu) == WqFinish(m, q, qNet, xp, xc, w, cu, lu);
      r := VoidNegative(c, l, q, qNet, sol, cu, lu);
    }
  }

  // Properties across solvers

  /** The two high-pass forms solve the same quadratic with the ports swapped. */
  lemma {:induction false} HpDiscPortSwap(q: real, zs: Complex, zl: Complex)
    ensures HpLcDisc(q, zl.re, zl.im, zs.re) == HpClDisc(q, zs.re, zl.re, zl.im)
  {
  }

  /** So do the two low-pass forms. */
  lemma {:induction false} LpDiscPortSwap(q: real, zs: Complex, zl: Complex)
    ensures LpLcDisc(q, zl.re, zl.im, zs.re, zs.im) == LpClDisc(q, zs.re, zs.im, zl.re, zl.im)
  {
  }

  /**
   * Where the L-section of `ell.rs` has a realisation, the Q-target form
   * reports its Q as `q_net` (or voids it).
   */
  lemma {:induction false} HpClNetQIsEllQ(m: Libm, zs: Complex, zl: Complex, q: real, w: real, cu: Unit, lu: Unit)
    requires Passive(zs, zl, w) && Scalable(m, cu) && Scalable(m, lu) && !Conjugate(zs, zl)
    ensures var e := HpEllCl(m, zs, zl, w, cu, lu); var r := HpEllClWQ(m, zs, zl, q, w, cu, lu);
      !e.q.NaN? ==> r.qNet == e.q || r.qNet.NaN?
  {
  }

  lemma {:induction false} HpLcNetQIsEllQ(m: Libm, zs: Complex, zl: Complex, q: real, w: real, cu: Unit, lu: Unit)
    requires Passive(zs, zl, w) && Scalable(m, cu) && Scalable(m, lu) && !Conjugate(zs, zl)
    ensures var e := HpEllLc(m, zs, zl, w, cu, lu); var r := HpEllLcWQ(m, zs, zl, q, w, cu, lu);
      !e.q.NaN? ==> r.qNet == e.q || r.qNet.NaN?
  {
  }

  lemma {:induction false} LpClNetQIsEllQ(m: Libm, zs: Complex, zl: Complex, q: real, w: real, cu: Unit, lu: Unit)
    requires Passive(zs, zl, w) && Scalable(m, cu) && Scalable(m, lu) && !Conjugate(zs, zl)
    ensures var e := LpEllCl(m, zs, zl, w, cu, lu); var r := LpEllClWQ(m, zs, zl, q, w, cu, lu);
      !e.q.NaN? ==> r.qNet == e.q || r.qNet.NaN?
  {
  }

  lemma {:induction false} LpLcNetQIsEllQ(m: Libm, zs: Complex, zl: Complex, q: real, w: real, cu: Unit, lu: Unit)
    requires Passive(zs, zl, w) && Scalable(m, cu) && Scalable(m, lu) && !Conjugate(zs, zl)
    ensures var e := LpEllLc(m, zs, zl, w, cu, lu); var r := LpEllLcWQ(m, zs, zl, q, w, cu, lu);
      !e.q.NaN? ==> r.qNet == e.q || r.qNet.NaN?
  {
  }

  /** As written, `calc_hp_ell_cl_w_q` reports a `q_net` of 3 where the L-section's Q is 2. */
  lemma HpClNetQAsWrittenDiffers(m: Libm)
    requires SqrtLaw(m)
    ensures HpClNetQAsWritten(m, Complex(10.0, 10.0), Complex(50.0, 0.0)) != HpClNetQ(m, Complex(10.0, 10.0), Complex(50.0, 0.0))
  {
    var zs := Complex(10.0, 10.0);
    var zl := Complex(50.0, 0.0);
    assert SeriesQ(zs) == 1.0;
    assert HpParallelR(zl) == 50.0;
    assert HpClNetQAsWritten(m, zs, zl) == Num(m.sqrt(9.0));
    assert HpClNetQ(m, zs, zl) == Num(m.sqrt(4.0));
    assert m.sqrt(9.0) * m.sqrt(9.0) == 9.0;
    assert m.sqrt(4.0) * m.sqrt(4.0) == 4.0;
  }

  /** As written, `calc_hp_ell_lc_w_q` reports a `q_net` of 1 where no L-section exists. */
  lemma HpLcNetQAsWrittenDiffers(m: Libm)
    ensures HpLcNetQAsWritten(m, Complex(10.0, 10.0), Complex(50.0, 0.0)).Num?
    ensures HpLcNetQ(m, Complex(10.0, 10.0), Complex(50.0, 0.0)).NaN?
  {
    assert HpParallelR(Complex(10.0, 10.0)) == 20.0;
  }
}
