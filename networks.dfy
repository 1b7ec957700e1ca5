/**
 * What the matching-network solvers (`matching.rs` and the files under `matching/`) share:
 * the records they return, the domain they are modelled on, and the few
 * `f64` rules they rely on where a value becomes infinite or NaN.
 *
 * A solver reports "no realisation" by NaN and an element that is not
 * needed by +inf; both are `Value`s.  Component values pass through
 * `scale` into the caller's units, and a negative component voids its
 * group.
 */
module Networks {
  import opened Numeric
  import opened Units

  /** `CL`: an L-section, its Q, and the unit labels. */
  datatype CL = CL(c: Value, l: Value, q: Value, cScale: string, lScale: string)

  /** `CLQ`: an L-section for a target Q; `sol` is 0 for the conjugate shortcut and 1 otherwise. */
  datatype CLQ = CLQ(c: Value, l: Value, q: real, qNet: Value, sol: nat, cScale: string, lScale: string)

  /** `CCLL`: a two-section network with source-side and load-side parts. */
  datatype CCLL = CCLL(cs: Value, cl: Value, ls: Value, ll: Value, cScale: string, lScale: string)

  /** `PiTee`: the two realisations of a Pi or Tee network and the Q they meet. */
  datatype PiTee = PiTee(c: Value, cs: Value, cl: Value, l: Value, ls: Value, ll: Value, q: Value,
                         cScale: string, lScale: string)

  /**
   * The domain the solvers are modelled on: passive ports (positive
   * resistance) and a positive angular frequency.
   */
  predicate Passive(zs: Complex, zl: Complex, w: real)
  {
    zs.re > 0.0 && zl.re > 0.0 && w > 0.0
  }

  /** The unit labels every solver returns with its values. */
  predicate Labelled(cScale: string, lScale: string, cu: Unit, lu: Unit)
  {
    cScale == GetUnit(cu, Farad) && lScale == GetUnit(lu, Henry)
  }

  /** The conjugate-match test the L-section solvers start with. */
  predicate Conjugate(zs: Complex, zl: Complex)
  {
    zs.re == zl.re && zs.im == -zl.im
  }

  /** `a / b` in `f64`, where a zero `b` is the `+0.0` that the source's subtractions produce. */
  function Quot(a: real, b: real): (r: Value)
    ensures b != 0.0 ==> r == Num(a / b)
    ensures b == 0.0 ==> (r == PosInf <==> a > 0.0)
  {
    if b != 0.0 then Num(a / b)
    else if a > 0.0 then PosInf
    else if a < 0.0 then NegInf
    else NaN
  }

  /** `x.sqrt()`: NaN for a negative argument. */
  function SqrtV(m: Libm, x: real): (r: Value)
    ensures r.NaN? <==> x < 0.0
  {
    if x < 0.0 then NaN else Num(m.sqrt(x))
  }

  /** `x + k` for a finite `k`. */
  function AddR(x: Value, k: real): (r: Value)
    ensures r.NaN? <==> x.NaN?
  {
    match x
    case Num(v) => Num(v + k)
    case _ => x
  }

  /** `x / k`, with the infinities and NaN of `f64`. */
  function DivValue(x: Value, k: real): (r: Value)
    ensures x.NaN? ==> r.NaN?
  {
    match x
    case Num(v) => Quot(v, k)
    case NaN => NaN
    case PosInf => if k > 0.0 then PosInf else if k < 0.0 then NegInf else PosInf
    case NegInf => if k > 0.0 then NegInf else if k < 0.0 then PosInf else NegInf
  }

  /** `-x`. */
  function NegValue(x: Value): (r: Value)
    ensures r.NaN? <==> x.NaN?
  {
    match x
    case Num(v) => Num(-v)
    case NaN => NaN
    case PosInf => NegInf
    case NegInf => PosInf
  }

  /** `a / x`: the reciprocal of an infinity is zero. */
  function RecipValue(a: real, x: Value): (r: Value)
    ensures x.NaN? ==> r.NaN?
  {
    match x
    case Num(v) => Quot(a, v)
    case NaN => NaN
    case PosInf => Num(0.0)
    case NegInf => Num(0.0)
  }

  /** `k * x` for a finite `k`: an infinity times zero is NaN. */
  function MulValue(k: real, x: Value): (r: Value)
    ensures x.NaN? ==> r.NaN?
    ensures k > 0.0 ==> (x == PosInf <==> r == PosInf)
  {
    match x
    case Num(v) => Num(k * v)
    case NaN => NaN
    case PosInf => if k > 0.0 then PosInf else if k < 0.0 then NegInf else NaN
    case NegInf => if k > 0.0 then NegInf else if k < 0.0 then PosInf else NaN
  }

  /**
   * `scale(x, unit)` on a value that may be infinite or NaN.  It keeps NaN,
   * keeps +inf in a unit with a positive factor, and does not change the
   * sign of a finite value in such a unit.
   */
  function ScaleValue(m: Libm, x: Value, u: Unit): (r: Value)
    requires Scalable(m, u)
    ensures x.NaN? <==> r.NaN?
    ensures UnitScale(m, u) > 0.0 ==> (x == PosInf <==> r == PosInf)
    ensures UnitScale(m, u) > 0.0 ==> (x.IsNegative() <==> r.IsNegative())
    ensures x.Num? ==> r == Num(ScaleVal(m, x.v, u))
  {
    match x
    case Num(v) =>
      if UnitScale(m, u) > 0.0 then
        assert v < 0.0 <==> v * UnitScale(m, u) < 0.0 by { SignOfProduct(v, UnitScale(m, u)); }
        Num(ScaleVal(m, v, u))
      else Num(ScaleVal(m, v, u))
    case _ => MulValue(UnitScale(m, u), x)
  }

  lemma SignOfProduct(v: real, k: real)
    requires k > 0.0
    ensures v < 0.0 <==> v * k < 0.0
  {
    if v < 0.0 {
      assert v * k < 0.0;
    } else {
      MulNonneg(v, k);
    }
  }

  /**
   * `if x1 == x { x = INFINITY } else { x *= x1 / (x1 - x) }`: the series
   * combination that absorbs an existing part `x1` into the ideal part `x`.
   * An infinite `x` comes out NaN, as `inf * (x1 / -inf)` does.
   */
  function Absorb(x: Value, x1: real): (r: Value)
    ensures x == Num(x1) ==> r == PosInf
    ensures r.NaN? <==> !x.Num?
  {
    match x
    case Num(v) => if x1 == v then PosInf else Num(v * (x1 / (x1 - v)))
    case _ => NaN
  }

  /** Whether a group of results is voided because one member is negative. */
  predicate AnyNegative(a: Value, b: Value)
  {
    a.IsNegative() || b.IsNegative()
  }

  predicate AnyNegative4(a: Value, b: Value, c: Value, d: Value)
  {
    a.IsNegative() || b.IsNegative() || c.IsNegative() || d.IsNegative()
  }

  /** No member of the group is NaN, or every member is. */
  predicate AllOrNoneNaN4(a: Value, b: Value, c: Value, d: Value)
  {
    (a.NaN? && b.NaN? && c.NaN? && d.NaN?) || (!a.NaN? && !b.NaN? && !c.NaN? && !d.NaN?)
  }

  predicate AllOrNoneNaN3(a: Value, b: Value, c: Value)
  {
    (a.NaN? && b.NaN? && c.NaN?) || (!a.NaN? && !b.NaN? && !c.NaN?)
  }

  /** `a / b - 1` is not negative when `0 < b <= a`: the square roots the feasibility tests guard. */
  lemma RatioAtLeastOne(a: real, b: real)
    requires 0.0 < b <= a
    ensures a / b - 1.0 >= 0.0
  {
    assert a / b >= 1.0 by {
      assert (a / b) * b == a;
    }
  }
}
