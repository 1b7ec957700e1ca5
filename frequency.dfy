/**
 * `frequency.rs`: a frequency stored as a value `val` in a unit `unit`, with
 * `freq()` the value in hertz and `freq_scaled()` the stored value.
 */
module Frequencies {
  import opened Numeric
  import opened Units

  /**
   * The stored value after a change of unit from `from` to `to` that keeps
   * the frequency: `scale(unscale(val, from), to)`.
   */
  function ConvertedVal(m: Libm, val: real, from: Unit, to: Unit): (r: real)
    requires Scalable(m, from) && Scalable(m, to)
    ensures UnscaleVal(m, r, to) == UnscaleVal(m, val, from)
    ensures from == to ==> r == val
  {
    var hz := UnscaleVal(m, val, from);
    ScaleUnscaleInverse(m, hz, to);
    ScaleUnscaleInverse(m, val, from);
    ScaleVal(m, hz, to)
  }

  /**
   * `set_freq_unit` as written: `unscale(scale(val, from), to)`, which
   * converts in the wrong direction.
   */
  function SetFreqUnitAsWritten(m: Libm, val: real, from: Unit, to: Unit): (r: real)
    requires Scalable(m, from) && Scalable(m, to)
    ensures from == to ==> r == val
  {
    ScaleUnscaleInverse(m, val, from);
    UnscaleVal(m, ScaleVal(m, val, from), to)
  }

  /**
   * 280 GHz re-expressed in megahertz as written is stored as 0.28, that is
   * 280 kHz, where the frequency-preserving value is 280000.
   */
  lemma SetFreqUnitAsWrittenLosesFrequency(m: Libm)
    ensures SetFreqUnitAsWritten(m, 280.0, Giga, Mega) == 0.28
    ensures UnscaleVal(m, SetFreqUnitAsWritten(m, 280.0, Giga, Mega), Mega) == 280000.0
    ensures UnscaleVal(m, 280.0, Giga) == 280000000000.0
    ensures ConvertedVal(m, 280.0, Giga, Mega) == 280000.0
  {
    assert UnitUnscale(m, Giga) == 1e9 && UnitUnscale(m, Mega) == 1e6;
    var c := ConvertedVal(m, 280.0, Giga, Mega);
    assert c * 1e6 == 280.0 * 1e9;
  }

  class Frequency {
    var val: real
    var unit: Unit

    /** `Frequency::new(freq, unit)`: the value is stored as given. */
    constructor(v: real, u: Unit)
      ensures val == v && unit == u
    {
      val := v;
      unit := u;
    }

    /** `freq()`: the frequency in hertz; the stored value is it expressed in `unit`. */
    function Freq(m: Libm): (r: real)
      reads this
      requires Scalable(m, unit)
      ensures ScaleVal(m, r, unit) == FreqScaled()
    {
      ScaleUnscaleInverse(m, val, unit);
      UnscaleVal(m, val, unit)
    }

    /** `freq_scaled()`: the stored value. */
    function FreqScaled(): real
      reads this
    {
      val
    }

    /** `w()`: the angular frequency of `freq()`. */
    function W(m: Libm): (r: real)
      reads this
      requires Scalable(m, unit)
      ensures r == Angular(Freq(m))
    {
      2.0 * PI * UnscaleVal(m, val, unit)
    }

    /** `wavelength(er)`: `3e8 / (freq() * sqrt(er))`, so wavelength times `f sqrt(er)` is the speed of light. */
    function Wavelength(m: Libm, er: real): (r: real)
      reads this
      requires Scalable(m, unit) && Freq(m) * m.sqrt(er) != 0.0
      ensures r * (Freq(m) * m.sqrt(er)) == C0
    {
      C0 / (UnscaleVal(m, val, unit) * m.sqrt(er))
    }

    /** `set_freq(v)`: the stored value becomes `v`; the unit stays. */
    method SetFreq(v: real)
      modifies this
      ensures FreqScaled() == v && unit == old(unit)
    {
      val := v;
    }

    /** `set_freq_scaled(v)`: stores `unscale(v, unit)`; the unit stays. */
    method SetFreqScaled(m: Libm, v: real)
      requires Scalable(m, unit)
      modifies this
      ensures unit == old(unit) && val == UnscaleVal(m, v, unit)
    {
      val := UnscaleVal(m, v, unit);
    }

    /**
     * `set_freq_unit(u)`, with the conversion the method evidently intends:
     * the unit becomes `u` and the frequency in hertz is unchanged.
     */
    method SetFreqUnit(m: Libm, u: Unit)
      requires Scalable(m, unit) && Scalable(m, u)
      modifies this
      ensures unit == u && val == ConvertedVal(m, old(val), old(unit), u)
      ensures Freq(m) == old(Freq(m))
    {
      val := ConvertedVal(m, val, unit, u);
      unit := u;
    }
  }
}
