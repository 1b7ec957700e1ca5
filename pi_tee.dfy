/**
 * What `matching/pi.rs` and `matching/tee.rs` share: the target-Q tests
 * both start with, the least Q of a network between two resistances, and
 * the parallel combination `a b / (a + b)` both use for a middle part.
 */
module PiTees {
  import opened Numeric
  import opened Units
  import opened Networks
  import opened Ells
  import opened TwoSections

  /** A result whose six parts are `v` and whose Q is `q`. */
  function PiTeeAll(v: Value, q: Value, cu: Unit, lu: Unit): PiTee
  {
    PiTee(v, v, v, v, v, v, q, GetUnit(cu, Farad), GetUnit(lu, Henry))
  }

  /** `f64::max` and `f64::min` on numbers. */
  function Max(a: real, b: real): real { if a >= b then a else b }
  function Min(a: real, b: real): real { if a <= b then a else b }

  /** `(max / min - 1).sqrt()`: the least Q of a network between the resistances `rs` and `rl`. */
  function MinQ(m: Libm, rs: real, rl: real): (q: real)
    requires rs > 0.0 && rl > 0.0
    ensures SqrtLaw(m) ==> 0.0 <= q && q * q == Max(rs, rl) / Min(rs, rl) - 1.0
  {
    RatioAtLeastOne(Max(rs, rl), Min(rs, rl));
    Sqrt(m, Max(rs, rl) / Min(rs, rl) - 1.0)
  }

  /**
   * A target at or above the least Q lifts the smaller resistance to at
   * least the larger one: `max <= min (q^2 + 1)`, strictly above the least Q.
   */
  lemma {:induction false} MinQBound(m: Libm, rs: real, rl: real, qt: real)
    requires SqrtLaw(m) && rs > 0.0 && rl > 0.0 && qt >= MinQ(m, rs, rl)
    ensures Max(rs, rl) <= Min(rs, rl) * (qt * qt + 1.0)
    ensures qt > MinQ(m, rs, rl) ==> Max(rs, rl) < Min(rs, rl) * (qt * qt + 1.0)
  {
    var hi, lo := Max(rs, rl), Min(rs, rl);
    var s := MinQ(m, rs, rl);
    RatioAtLeastOne(hi, lo);
    assert 0.0 <= s && s * s == hi / lo - 1.0;
    SquareMonotone(s, qt);
    if s < qt {
      assert hi / lo < qt * qt + 1.0;
      assert hi == (hi / lo) * lo;
      MulPos((qt * qt + 1.0) - hi / lo, lo);
    } else {
      assert s == qt;
      assert hi == (hi / lo) * lo;
    }
  }

  /** `sqrt(a / b - 1)` where `0 < b <= a`: a section Q, zero when `a == b`. */
  function SectionRoot(m: Libm, a: real, b: real): (q: real)
    requires SqrtLaw(m) && 0.0 < b <= a
    ensures 0.0 <= q
    ensures b < a ==> 0.0 < q
  {
    if b < a then SectionQ(m, a, b) else EllQ(m, a, b)
  }

  /** `a * b / (a + b)`: two inductors, or two series capacitors, in parallel combination. */
  function ParallelValue(a: Value, b: Value): (r: Value)
    ensures !a.Num? || !b.Num? ==> r.NaN?
    ensures a.Num? && b.Num? && a.v > 0.0 && b.v > 0.0 ==> r.Num? && 0.0 < r.v < a.v && r.v < b.v
  {
    if a.Num? && b.Num? then
      if a.v > 0.0 && b.v > 0.0 then Num(Parallel(a.v, b.v))
      else Quot(a.v * b.v, a.v + b.v)
    else NaN
  }

  /** Two positive parts in parallel combination: positive and below each of them. */
  function Parallel(a: real, b: real): (p: real)
    requires a > 0.0 && b > 0.0
    ensures 0.0 < p < a && p < b
  {
    ParallelBelow(a, b);
    a * b / (a + b)
  }

  lemma ParallelBelow(a: real, b: real)
    requires a > 0.0 && b > 0.0
    ensures 0.0 < a * b / (a + b) < a && a * b / (a + b) < b
  {
    MulPos(a, b);
    assert a * b / (a + b) * (a + b) == a * b;
    var p := a * b / (a + b);
    if p <= 0.0 {
      MulNonneg(-p, a + b);
    }
    if p >= a {
      MulNonneg(p - a, a + b);
      MulPos(a, a);
    }
    if p >= b {
      MulNonneg(p - b, a + b);
      MulPos(b, b);
    }
  }

  /** The square root of a square is the number itself. */
  lemma {:induction false} SqrtOfSquare(m: Libm, k: real)
    requires SqrtLaw(m) && 0.0 <= k
    ensures m.sqrt(k * k) == k
  {
    SquareNonneg(k);
    var s := m.sqrt(k * k);
    assert 0.0 <= s && s * s == k * k;
    SquareMonotone(s, k);
    SquareMonotone(k, s);
  }

  predicate AnyNegative3(a: Value, b: Value, c: Value)
  {
    a.IsNegative() || b.IsNegative() || c.IsNegative()
  }
}
