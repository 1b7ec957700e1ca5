/**
 * `matching/tee.rs`: the two Tee networks for a target Q, a shunt
 * capacitor between two series inductors and a shunt inductor between two
 * series capacitors.  Both lift the smaller port resistance to the virtual
 * resistance `rv = min (q^2 + 1)`, above both ports, through one section
 * at each port.  The series capacitors absorb the port reactances in the
 * form `cs * (a / (cs - a))`, with `a = -1 / (w x)` the port's own capacitance.
 */
module Tees {
  import opened Numeric
  import opened Units
  import opened Networks
  import opened Ells
  import opened TwoSections
  import opened PiTees

  /** `-1 / (w x)`: the capacitance of the reactance `x`; `-inf` for `x = +0`. */
  function PortCap(w: real, x: real): (a: Value)
    requires w > 0.0
    ensures x != 0.0 ==> a.Num?
    ensures x == 0.0 ==> a == NegInf
  {
    if x != 0.0 then Num(CapOfReactance(w, x)) else NegInf
  }

  /**
   * `if x == a { x = INFINITY } else { x *= a / (x - a) }`: a series
   * capacitor absorbing the port capacitance `a`.  Anything but two finite
   * numbers gives NaN, as `inf / inf` and `inf * 0` do.
   */
  function TeeAbsorb(x: Value, a: Value): (r: Value)
    ensures x.Num? && a.Num? && x.v == a.v ==> r == PosInf
    ensures x.Num? && a.Num? ==> r.Num? || r == PosInf
    ensures x.Num? && !a.Num? && !a.NaN? ==> r.NaN?
  {
    if x == a && !x.NaN? then PosInf
    else if x.Num? && a.Num? then MulValue(x.v, Quot(a.v, x.v - a.v))
    else NaN
  }

  /**
   * The series capacitor `1 / (w r qx)` of a section, absorbing the port
   * capacitance `-1 / (w x)` when the `guard` reactance is not zero.
   */
  function TeeSeriesC(w: real, r: real, qx: real, guard: real, x: real): (c: Value)
    requires w > 0.0 && r > 0.0 && qx >= 0.0
    ensures qx > 0.0 && (guard != 0.0 ==> x != 0.0) ==> c.Num? || c == PosInf
    ensures qx > 0.0 && guard != 0.0 && x == 0.0 ==> c.NaN?
  {
    if qx > 0.0 then
      SeriesCPositive(qx, w, r);
      if guard != 0.0 then TeeAbsorb(HpSeriesC(qx, w, r), PortCap(w, x)) else HpSeriesC(qx, w, r)
    else
      if guard != 0.0 then TeeAbsorb(HpSeriesC(qx, w, r), PortCap(w, x)) else HpSeriesC(qx, w, r)
  }

  /**
   * The two negativity filters: `(c, ls, ll)` become NaN together when one
   * of them is negative, and `(l, cs, cl)` when one of them is negative or
   * a series capacitor is +inf.  `q` is the target.
   */
  function TeeFiltered(c: Value, cs: Value, cl: Value, l: Value, ls: Value, ll: Value, q: real, cu: Unit, lu: Unit): (r: PiTee)
    ensures r.q == Num(q) && Labelled(r.cScale, r.lScale, cu, lu)
    ensures !AnyNegative3(r.c, r.ls, r.ll) && !AnyNegative3(r.l, r.cs, r.cl)
    ensures !r.cs.PosInf? && !r.cl.PosInf?
    ensures !c.NaN? && !ls.NaN? && !ll.NaN? ==> AllOrNoneNaN3(r.c, r.ls, r.ll)
    ensures !l.NaN? && !cs.NaN? && !cl.NaN? ==> AllOrNoneNaN3(r.l, r.cs, r.cl)
  {
    var a := AnyNegative3(c, ls, ll);
    var b := SeriesVoided(l, cs, cl);
    PiTee(if a then NaN else c, if b then NaN else cs, if b then NaN else cl,
          if b then NaN else l, if a then NaN else ls, if a then NaN else ll,
          Num(q), GetUnit(cu, Farad), GetUnit(lu, Henry))
  }

  /** `l < 0 || cs < 0 || cl < 0 || cs == INFINITY || cl == INFINITY`. */
  predicate SeriesVoided(l: Value, cs: Value, cl: Value)
  {
    AnyNegative3(l, cs, cl) || cs.PosInf? || cl.PosInf?
  }

  /** The two filters as the source applies them, one group after the other. */
  method VoidTeeGroups(c: Value, cs: Value, cl: Value, l: Value, ls: Value, ll: Value, q: real, cu: Unit, lu: Unit)
    returns (r: PiTee)
    ensures r == TeeFiltered(c, cs, cl, l, ls, ll, q, cu, lu)
  {
    var c2, cs2, cl2, l2, ls2, ll2 := c, cs, cl, l, ls, ll;
    if AnyNegative3(c, ls, ll) {
      c2, ls2, ll2 := NaN, NaN, NaN;
    }
    if SeriesVoided(l, cs, cl) {
      l2, cs2, cl2 := NaN, NaN, NaN;
    }
    r := PiTee(c2, cs2, cl2, l2, ls2, ll2, Num(q), GetUnit(cu, Farad), GetUnit(lu, Henry));
  }

  /** `min (q^2 + 1)`: the virtual resistance, at or above both ports for a target at or above the least Q. */
  function TeeRv(m: Libm, rs: real, rl: real, qt: real): (rv: real)
    requires SqrtLaw(m) && rs > 0.0 && rl > 0.0 && qt >= MinQ(m, rs, rl)
    ensures rs <= rv && rl <= rv
    ensures qt > MinQ(m, rs, rl) ==> rs < rv && rl < rv
  {
    MinQBound(m, rs, rl, qt);
    Min(rs, rl) * (qt * qt + 1.0)
  }

  /**
   * The feasible branch.  `xcl` is the reactance whose capacitance the
   * load-side capacitor absorbs.
   */
  function TeeParts(m: Libm, zs: Complex, zl: Complex, w: real, qt: real, cu: Unit, lu: Unit, xcl: real): PiTee
    requires Passive(zs, zl, w) && SqrtLaw(m) && Scalable(m, cu) && Scalable(m, lu)
    requires qt >= MinQ(m, zs.re, zl.re)
  {
    var rv := TeeRv(m, zs.re, zl.re, qt);
    TeeStage(m, zs, zl, w, rv, SectionRoot(m, rv, zs.re), SectionRoot(m, rv, zl.re), qt, cu, lu, xcl)
  }

  /** The parts for the virtual resistance `rv` and the section Qs `qx1` and `qx2`, scaled and filtered. */
  function TeeStage(m: Libm, zs: Complex, zl: Complex, w: real, rv: real, qx1: real, qx2: real, qt: real,
                    cu: Unit, lu: Unit, xcl: real): PiTee
    requires Passive(zs, zl, w) && rv > 0.0 && qx1 >= 0.0 && qx2 >= 0.0 && Scalable(m, cu) && Scalable(m, lu)
  {
    TeeFiltered(ScaleValue(m, Num(ShuntCOfQ(qx1, rv, w) + ShuntCOfQ(qx2, rv, w)), cu),
                ScaleValue(m, TeeSeriesC(w, zs.re, qx1, zs.im, zs.im), cu),
                ScaleValue(m, TeeSeriesC(w, zl.re, qx2, zl.im, xcl), cu),
                ScaleValue(m, ParallelValue(HpShuntL(rv, w, qx2), HpShuntL(rv, w, qx1)), lu),
                ScaleValue(m, Num(LpSeriesL(qx1, zs.re, zs.im, w)), lu),
                ScaleValue(m, Num(LpSeriesL(qx2, zl.re, zl.im, w)), lu), qt, cu, lu)
  }

  /**
   * `calc_tee` with the load-side capacitor absorbing the capacitance of
   * the reactance `xcl`.  A negative target voids everything, `q` included;
   * a zero target between equal resistances gives all zeros; a target below
   * the least Q voids everything.  Otherwise `q` is the target, no part is
   * negative and no series capacitor +inf, and `(c, ls, ll)` are NaN
   * together or not at all.
   */
  function TeeWith(m: Libm, zs: Complex, zl: Complex, w: real, qt: real, cu: Unit, lu: Unit, xcl: real): (r: PiTee)
    requires Passive(zs, zl, w) && SqrtLaw(m) && Scalable(m, cu) && Scalable(m, lu)
    ensures Labelled(r.cScale, r.lScale, cu, lu)
    ensures qt < 0.0 ==> r == PiTeeAll(NaN, NaN, cu, lu)
    ensures qt == 0.0 && zs.re == zl.re ==> r == PiTeeAll(Num(0.0), Num(0.0), cu, lu)
    ensures 0.0 <= qt < MinQ(m, zs.re, zl.re) && !(qt == 0.0 && zs.re == zl.re) ==> r == PiTeeAll(NaN, NaN, cu, lu)
    ensures 0.0 <= qt && MinQ(m, zs.re, zl.re) <= qt && !(qt == 0.0 && zs.re == zl.re) ==>
      r.q == Num(qt) && !AnyNegative3(r.c, r.ls, r.ll) && !AnyNegative3(r.l, r.cs, r.cl) &&
      !r.cs.PosInf? && !r.cl.PosInf? && AllOrNoneNaN3(r.c, r.ls, r.ll)
  {
    if qt < 0.0 then PiTeeAll(NaN, NaN, cu, lu)
    else if qt == 0.0 && zs.re == zl.re then PiTeeAll(Num(0.0), Num(0.0), cu, lu)
    else if qt < MinQ(m, zs.re, zl.re) then PiTeeAll(NaN, NaN, cu, lu)
    else TeeParts(m, zs, zl, w, qt, cu, lu, xcl)
  }

  /** `calc_tee` as written: the load-side capacitor absorbs the capacitance of the source reactance. */
  function TeeAsWritten(m: Libm, zs: Complex, zl: Complex, w: real, qt: real, cu: Unit, lu: Unit): PiTee
    requires Passive(zs, zl, w) && SqrtLaw(m) && Scalable(m, cu) && Scalable(m, lu)
  {
    TeeWith(m, zs, zl, w, qt, cu, lu, zs.im)
  }

  /** `calc_tee` as intended: the load-side capacitor absorbs the capacitance of the load reactance. */
  function Tee(m: Libm, zs: Complex, zl: Complex, w: real, qt: real, cu: Unit, lu: Unit): PiTee
    requires Passive(zs, zl, w) && SqrtLaw(m) && Scalable(m, cu) && Scalable(m, lu)
  {
    TeeWith(m, zs, zl, w, qt, cu, lu, zl.im)
  }

  method CalcTee(m: Libm, zs: Complex, zl: Complex, w: real, qt: real, cu: Unit, lu: Unit) returns (r: PiTee)
    requires Passive(zs, zl, w) && SqrtLaw(m) && Scalable(m, cu) && Scalable(m, lu)
    ensures r == Tee(m, zs, zl, w, qt, cu, lu)
  {
    if qt < 0.0 {
      r := PiTeeAll(NaN, NaN, cu, lu);
    } else if qt == 0.0 && zs.re == zl.re {
      r := PiTeeAll(Num(0.0), Num(0.0), cu, lu);
    } else {
      r := TeeAboveLeast(m, zs, zl, w, qt, cu, lu);
    }
  }

  /** `calc_tee` past its first two tests: the least-Q test, then the network. */
  method TeeAboveLeast(m: Libm, zs: Complex, zl: Complex, w: real, qt: real, cu: Unit, lu: Unit) returns (r: PiTee)
    requires Passive(zs, zl, w) && SqrtLaw(m) && Scalable(m, cu) && Scalable(m, lu)
    requires qt >= 0.0 && !(qt == 0.0 && zs.re == zl.re)
    ensures r == Tee(m, zs, zl, w, qt, cu, lu)
  {
    if qt < MinQ(m, zs.re, zl.re) {
      r := PiTeeAll(NaN, NaN, cu, lu);
    } else {
      r := TeeNetwork(m, zs, zl, w, qt, cu, lu);
    }
  }

  /** The feasible branch of `calc_tee`. */
  method TeeNetwork(m: Libm, zs: Complex, zl: Complex, w: real, qt: real, cu: Unit, lu: Unit) returns (r: PiTee)
    requires Passive(zs, zl, w) && SqrtLaw(m) && Scalable(m, cu) && Scalable(m, lu)
    requires qt >= 0.0 && qt >= MinQ(m, zs.re, zl.re) && !(qt == 0.0 && zs.re == zl.re)
    ensures r == Tee(m, zs, zl, w, qt, cu, lu)
  {
    var rv := TeeRv(m, zs.re, zl.re, qt);
    assert Tee(m, zs, zl, w, qt, cu, lu) == TeeParts(m, zs, zl, w, qt, cu, lu, zl.im);
    r := TeeSections(m, zs, zl, w, rv, qt, cu, lu);
  }

  /** The parts of `calc_tee` for the virtual resistance `rv`, with one variable `qx` for every section Q in turn. */
  method TeeSections(m: Libm, zs: Complex, zl: Complex, w: real, rv: real, qt: real, cu: Unit, lu: Unit) returns (r: PiTee)
    requires Passive(zs, zl, w) && SqrtLaw(m) && Scalable(m, cu) && Scalable(m, lu)
    requires zs.re <= rv && zl.re <= rv
    ensures r == TeeStage(m, zs, zl, w, rv, SectionRoot(m, rv, zs.re), SectionRoot(m, rv, zl.re), qt, cu, lu, zl.im)
  {
    var qx := SectionRoot(m, rv, zs.re);
    var cs := TeeSeriesC(w, zs.re, qx, zs.im, zs.im);
    var l5 := HpShuntL(rv, w, qx);
    qx := SectionRoot(m, rv, zl.re);
    var cl := TeeSeriesC(w, zl.re, qx, zl.im, zl.im);
    var l1 := HpShuntL(rv, w, qx);
    var l := ParallelValue(l1, l5);
    qx := SectionRoot(m, rv, zs.re);
    var ls := Num(LpSeriesL(qx, zs.re, zs.im, w));
    var c5 := ShuntCOfQ(qx, rv, w);
    qx := SectionRoot(m, rv, zl.re);
    var ll := Num(LpSeriesL(qx, zl.re, zl.im, w));
    var c := Num(c5 + ShuntCOfQ(qx, rv, w));
    c := ScaleValue(m, c, cu);
    cs := ScaleValue(m, cs, cu);
    cl := ScaleValue(m, cl, cu);
    l := ScaleValue(m, l, lu);
    ls := ScaleValue(m, ls, lu);
    ll := ScaleValue(m, ll, lu);
    assert TeeStage(m, zs, zl, w, rv, SectionRoot(m, rv, zs.re), SectionRoot(m, rv, zl.re), qt, cu, lu, zl.im) ==
      TeeFiltered(c, cs, cl, l, ls, ll, qt, cu, lu);
    r := VoidTeeGroups(c, cs, cl, l, ls, ll, qt, cu, lu);
  }

  /**
   * With the load's own capacitance absorbed, and the target above the
   * least Q, `(l, cs, cl)` are NaN together or not at all.
   */
  lemma {:induction false} TeeSeriesGroupAgrees(m: Libm, zs: Complex, zl: Complex, w: real, qt: real, cu: Unit, lu: Unit)
    requires Passive(zs, zl, w) && SqrtLaw(m) && Scalable(m, cu) && Scalable(m, lu)
    requires qt > MinQ(m, zs.re, zl.re) && !(qt == 0.0 && zs.re == zl.re)
    ensures var r := Tee(m, zs, zl, w, qt, cu, lu); AllOrNoneNaN3(r.l, r.cs, r.cl)
  {
    var rv := TeeRv(m, zs.re, zl.re, qt);
    var qx1 := SectionRoot(m, rv, zs.re);
    var qx2 := SectionRoot(m, rv, zl.re);
    assert Tee(m, zs, zl, w, qt, cu, lu) == TeeStage(m, zs, zl, w, rv, qx1, qx2, qt, cu, lu, zl.im);
    StageSeriesGroupAgrees(m, zs, zl, w, rv, qx1, qx2, qt, cu, lu);
  }

  /** With positive section Qs and the load's own capacitance absorbed, `(l, cs, cl)` are never NaN before the filter. */
  lemma StageSeriesGroupAgrees(m: Libm, zs: Complex, zl: Complex, w: real, rv: real, qx1: real, qx2: real, qt: real,
                               cu: Unit, lu: Unit)
    requires Passive(zs, zl, w) && rv > 0.0 && qx1 > 0.0 && qx2 > 0.0 && Scalable(m, cu) && Scalable(m, lu)
    ensures var r := TeeStage(m, zs, zl, w, rv, qx1, qx2, qt, cu, lu, zl.im); AllOrNoneNaN3(r.l, r.cs, r.cl)
  {
    assert !TeeSeriesC(w, zs.re, qx1, zs.im, zs.im).NaN?;
    assert !TeeSeriesC(w, zl.re, qx2, zl.im, zl.im).NaN?;
    ShuntLFinite(rv, w, qx1);
    ShuntLFinite(rv, w, qx2);
  }

  /**
   * As written, a resistive source and a reactive load leave the load-side
   * capacitor NaN beside a finite series capacitor and middle inductor.
   */
  lemma TeeClAsWrittenMixesNaN(m: Libm)
    requires SqrtLaw(m)
    ensures var r := TeeAsWritten(m, Complex(50.0, 0.0), Complex(10.0, 5.0), 1.0, 3.0, Base, Base);
      r.cl.NaN? && r.cs.Num? && r.l.Num?
  {
    var zs, zl := Complex(50.0, 0.0), Complex(10.0, 5.0);
    SqrtOfSquare(m, 2.0);
    SqrtOfSquare(m, 1.0);
    SqrtOfSquare(m, 3.0);
    PseudoUnitsAreOne(m, Base);
    assert MinQ(m, 50.0, 10.0) == 2.0;
    var rv := TeeRv(m, 50.0, 10.0, 3.0);
    assert rv == 100.0;
    assert SectionRoot(m, rv, 50.0) == 1.0;
    assert SectionRoot(m, rv, 10.0) == 3.0;
    assert TeeSeriesC(1.0, 10.0, 3.0, 5.0, 0.0).NaN?;
    assert ParallelValue(Quot(100.0, 3.0), Quot(100.0, 1.0)).Num?;
    assert TeeAsWritten(m, zs, zl, 1.0, 3.0, Base, Base) == TeeParts(m, zs, zl, 1.0, 3.0, Base, Base, 0.0);
  }
}
