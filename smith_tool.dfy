/**
 * The schematic operations of the Smith-chart tool
 * (`src/assets/js/smith_tool.js`): adding an element from the palette,
 * editing one of its values, the table of tolerance corners, the overwrite
 * of the element values for one corner, and the reflection coefficient of
 * a normalised impedance.
 *
 * The tolerance corners: an element with a tolerance of `t` percent is
 * drawn at `1 + t/100` and `1 - t/100` times its values.  With `n`
 * toleranced elements there are `2^n` corners; the `k`-th toleranced
 * element alternates between its two multipliers in runs of `2^k` columns,
 * so that the columns are the binary numerals of the corners.  One more
 * column of ones, the ideal circuit, is appended when there are corners.
 */
module SmithTool {
  import opened Wrappers
  import opened Numeric
  import opened Schematics
  import R = RfUtils
  import opened UtilJs
  import opened Binary

  // ---------------------------------------------------------------------
  // Adding an element
  // ---------------------------------------------------------------------

  /** The palette's element tags. */
  const ELEMENT_KINDS: set<string> :=
    {"pr", "sr", "si", "pi", "sc", "pc", "tl", "ss", "so", "xfmr", "prlc", "srlc", "customZ"}

  /** The transmission-line tags: a line, a shorted stub and an open stub. */
  const LINE_KINDS: set<string> := {"tl", "ss", "so"}

  /** An element with its values and labels and no other property. */
  function Lumped(kind: string, abs: seq<real>, unit: seq<string>): Entry
  {
    Element(kind, 0.0, 0.0, Array(abs), Array(unit), 0.0, None, None, None, None)
  }

  /**
   * The entry `clicked_cell(type)` adds for a tag: a resistor of 50 Ω; an
   * inductor of Q 20 and 10 pH; a capacitor of Q 0 and 20 fF; a line or stub
   * of 1 um at 50 Ω; a transformer; an RLC of 1 Ω, 10 pH and 20 fF; or a
   * tabulated impedance.  There is no entry for any other tag.
   */
  function DefaultEntry(tag: string): (r: Option<Entry>)
    ensures r.Some? <==> tag in ELEMENT_KINDS
    ensures r.Some? ==> IsCurrent(r.value) && r.value.kind == tag
    ensures r.Some? ==> 0 < |r.value.abs.xs| == |r.value.unit.xs| <= 4
    ensures r.Some? ==> r.value.tol == 0.0 && r.value.re == 0.0 && r.value.im == 0.0 && r.value.absBbI.None?
    ensures r.Some? ==> (r.value.lineZo.Some? <==> tag in LINE_KINDS)
    ensures r.Some? ==> (r.value.custom.Some? <==> tag == "customZ")
  {
    match tag
    case "pr" | "sr" => Some(Lumped(tag, [50.0], ["Ω"]))
    case "si" | "pi" => Some(Lumped(tag, [20.0, 10.0], ["Q", "pH"]))
    case "sc" | "pc" => Some(Lumped(tag, [0.0, 20.0], ["Q", "fF"]))
    case "tl" | "ss" | "so" =>
      Some(Element(tag, 0.0, 0.0, Array([1.0]), Array(["um"]), 0.0, Some(1e-6), Some(50.0), None, None))
    case "xfmr" => Some(Lumped(tag, [20.0, 10.0, 10.0, 0.4], ["Q", "pH", "pH", "K"]))
    case "prlc" | "srlc" => Some(Lumped(tag, [1.0, 10.0, 20.0], ["Ω", "pH", "fF"]))
    case "customZ" =>
      Some(Element(tag, 0.0, 0.0, Array([50.0, 1.0, 1.0]), Array(["Ω", "nH", "pF"]), 0.0, None, None,
                   Some(Custom([(2440e6, 50.0, 50.0)], "linear", "2440e6,50,50")), None))
    case _ => None
  }

  /**
   * The labels of a default entry do not depend on the frequency: none is a
   * wavelength, so every value converts to base units by a fixed positive
   * factor.  A line's length of one `um` is its `line_length` in metres.
   */
  lemma {:induction false} DefaultLabelsAreFixed(m: Libm, tag: string, freq: real, er: real)
    requires tag in ELEMENT_KINDS
    ensures var e := DefaultEntry(tag).value;
            forall k :: 0 <= k < |e.unit.xs| ==>
              !Wavelength(e.unit.xs[k]) && UnitTextToNum(m, e.unit.xs[k], freq, er).Num?
    ensures var e := DefaultEntry(tag).value;
            tag in LINE_KINDS ==>
              e.abs.xs[0] * UnitTextToNum(m, e.unit.xs[0], freq, er).v == e.lineLength.value
  {
    var e := DefaultEntry(tag).value;
    forall k | 0 <= k < |e.unit.xs|
      ensures !Wavelength(e.unit.xs[k])
    {
      var l := e.unit.xs[k];
      assert l in ["Ω", "Q", "pH", "fF", "um", "K", "nH", "pF"];
      assert l[0] in "ΩQpfuKn";
    }
    if tag in LINE_KINDS {
      assert e.unit.xs[0] == "um" && "um"[0] == 'u';
    }
  }

  /** `clicked_cell(type)`: appends the default entry of a palette tag, or nothing. */
  method ClickedCell(s: Schematic, tag: string)
    requires s.Valid()
    modifies s
    ensures s.Valid()
    ensures tag in ELEMENT_KINDS ==> s.entries == old(s.entries) + [DefaultEntry(tag).value]
    ensures tag !in ELEMENT_KINDS ==> s.entries == old(s.entries)
  {
    var e := DefaultEntry(tag);
    if e.Some? {
      s.entries := s.entries + [e.value];
    }
  }

  // ---------------------------------------------------------------------
  // Editing a value
  // ---------------------------------------------------------------------

  /** The lumped tags whose edits always go to `abs`. */
  const LUMPED_KINDS: set<string> := {"rc", "rl", "prlc", "srlc", "sr", "pr", "pc", "sc", "pi", "si", "xfmr"}

  /** Whether an edit of the input `name` of an element of kind `kind` writes `abs`. */
  predicate WritesAbs(kind: string, name: string)
  {
    (kind == "bb" && name == "abs") || (kind in LINE_KINDS && name == "abs") || kind in LUMPED_KINDS
  }

  /**
   * An element after `update_schem_abs`: a black box takes the value into
   * `abs` or, for any other input, into its `abs_bb_i`; a line or stub into
   * `abs` or `line_zo`, and ignores other inputs; the lumped kinds always
   * into `abs`; any other kind ignores the edit.
   */
  function SchemAbsUpdated(e: Entry, name: string, v: real, k: nat): (r: Entry)
    requires IsCurrent(e) && (WritesAbs(e.kind, name) ==> k < |e.abs.xs|)
    ensures IsCurrent(r) && |r.abs.xs| == |e.abs.xs|
    ensures WritesAbs(e.kind, name) ==> r.abs.xs[k] == v && r.(abs := e.abs) == e
    ensures WritesAbs(e.kind, name) ==> forall j :: 0 <= j < |e.abs.xs| && j != k ==> r.abs.xs[j] == e.abs.xs[j]
    ensures e.kind == "bb" && name != "abs" ==> r == e.(absBbI := Some(v))
    ensures e.kind in LINE_KINDS && name == "line_zo" ==> r == e.(lineZo := Some(v))
    ensures !WritesAbs(e.kind, name) && e.kind != "bb" && !(e.kind in LINE_KINDS && name == "line_zo") ==> r == e
  {
    if e.kind == "bb" then
      if name == "abs" then e.(abs := Array(e.abs.xs[k := v])) else e.(absBbI := Some(v))
    else if e.kind in LINE_KINDS then
      if name == "abs" then e.(abs := Array(e.abs.xs[k := v]))
      else if name == "line_zo" then e.(lineZo := Some(v))
      else e
    else if e.kind in LUMPED_KINDS then e.(abs := Array(e.abs.xs[k := v]))
    else e
  }

  /**
   * `update_schem_abs(target_num, obj, absCounter)`: an edit of entry
   * `target`.  The settings entry has no type and ignores it.
   */
  method UpdateSchemAbs(s: Schematic, target: nat, name: string, value: real, absCounter: nat)
    requires s.Valid() && target < |s.entries|
    requires target > 0 && WritesAbs(s.entries[target].kind, name) ==> absCounter < |s.entries[target].abs.xs|
    modifies s
    ensures s.Valid()
    ensures target == 0 ==> s.entries == old(s.entries)
    ensures target > 0 ==>
              s.entries == old(s.entries)[target := SchemAbsUpdated(old(s.entries)[target], name, value, absCounter)]
  {
    if target == 0 {
      return;
    }
    var e := s.entries[target];
    if e.kind == "bb" {
      if name == "abs" {
        e := e.(abs := Array(e.abs.xs[absCounter := value]));
      } else {
        e := e.(absBbI := Some(value));
      }
    } else if e.kind in LINE_KINDS {
      if name == "abs" {
        e := e.(abs := Array(e.abs.xs[absCounter := value]));
      } else if name == "line_zo" {
        e := e.(lineZo := Some(value));
      }
    } else if e.kind in LUMPED_KINDS {
      e := e.(abs := Array(e.abs.xs[absCounter := value]));
    }
    s.entries := s.entries[target := e];
  }

  // ---------------------------------------------------------------------
  // The table of tolerance corners
  // ---------------------------------------------------------------------

  /** The number of toleranced elements among entries `1 .. n - 1`. */
  function TolCount(es: seq<Entry>, n: nat): nat
    requires n <= |es|
  {
    if n <= 1 then 0 else TolCount(es, n - 1) + (if Tol(es[n - 1]) > 0.0 then 1 else 0)
  }

  /** The number of corners: `2^(number of toleranced elements)`. */
  function Corners(es: seq<Entry>): nat
  {
    Pow2(TolCount(es, |es|))
  }

  /**
   * The multiplier of an element with tolerance `tol`, the `k`-th
   * toleranced one, at corner `j`: the upper one when bit `k` of `j` is clear.
   */
  function Multiplier(tol: real, k: nat, j: nat): real
  {
    if tol > 0.0 then (if BitClear(k, j) then 1.0 + tol / 100.0 else 1.0 - tol / 100.0) else 1.0
  }

  /** The ideal column, present when there are corners. */
  function IdealColumn(es: seq<Entry>): seq<real>
  {
    if Corners(es) > 1 then [1.0] else []
  }

  /** `tolElements[i]`: the multipliers of entry `i` at every corner, then the ideal one. */
  function TolRow(es: seq<Entry>, i: nat): (row: seq<real>)
    requires 1 <= i < |es|
    ensures |row| == Corners(es) + |IdealColumn(es)|
  {
    seq(Corners(es), j requires 0 <= j => Multiplier(Tol(es[i]), TolCount(es, i), j)) + IdealColumn(es)
  }

  /** `tolElements`, whose entry 0 is never set and is modelled as empty. */
  function TolTable(es: seq<Entry>): (t: seq<seq<real>>)
    ensures |t| == |es|
  {
    seq(|es|, i requires 0 <= i < |es| => if i == 0 then [] else TolRow(es, i))
  }

  /** The multiplier a toleranced element has at a corner. */
  lemma TolTableAt(es: seq<Entry>, i: nat, j: nat)
    requires 1 <= i < |es| && j < Corners(es)
    ensures TolTable(es)[i][j] == Multiplier(Tol(es[i]), TolCount(es, i), j)
  {
  }

  /**
   * The table of tolerance corners.  Each entry's row starts as ones; for
   * the `k`-th toleranced entry, with `tolJumper = 2^(k + 1)`, the columns
   * `x + n tolJumper` for `x < tolJumper / 2` are set to the upper
   * multiplier and the columns `x + tolJumper / 2 + n tolJumper` to the
   * lower one.
   */
  method ToleranceTable(s: Schematic) returns (rows: seq<seq<real>>)
    requires s.Valid()
    ensures rows == TolTable(s.entries)
  {
    var es := s.entries;
    var numTol := 0;
    var i := 1;
    while i < |es|
      invariant 1 <= i <= |es|
      invariant numTol == TolCount(es, i)
    {
      if Tol(es[i]) > 0.0 {
        numTol := numTol + 1;
      }
      i := i + 1;
    }
    var arrLen := Pow2(numTol);
    var tolJumper := 2;
    rows := [[]];
    i := 1;
    while i < |es|
      invariant 1 <= i <= |es| && |rows| == i && rows[0] == []
      invariant tolJumper == Pow2(TolCount(es, i) + 1)
      invariant forall r :: 1 <= r < i ==> rows[r] == TolRow(es, r)
    {
      var row := new real[arrLen](_ => 1.0);
      var tol := Tol(es[i]);
      if tol > 0.0 {
        FillCorners(row, tolJumper / 2, tolJumper, 1.0 + tol / 100.0, 1.0 - tol / 100.0);
        tolJumper := tolJumper * 2;
      }
      var r := row[..];
      assert r == seq(Corners(es), j requires 0 <= j => Multiplier(tol, TolCount(es, i), j));
      if arrLen > 1 {
        r := r + [1.0];
      }
      rows := rows + [r];
      i := i + 1;
    }
  }

  /**
   * The two double loops of one toleranced entry: over a row of ones, the
   * columns whose residue modulo `jumper` is below `half` take `upper` and
   * the others `lower`.
   */
  method FillCorners(row: array<real>, half: nat, jumper: nat, upper: real, lower: real)
    requires half > 0 && jumper == 2 * half
    requires forall p :: 0 <= p < row.Length ==> row[p] == 1.0
    modifies row
    ensures forall p :: 0 <= p < row.Length ==> row[p] == if p % jumper < half then upper else lower
  {
    var x := 0;
    while x < half
      invariant 0 <= x <= half
      invariant forall p :: 0 <= p < row.Length ==> row[p] == if p % jumper < x then upper else 1.0
    {
      FillResidue(row, x, jumper, upper);
      x := x + 1;
    }
    x := 0;
    while x < half
      invariant 0 <= x <= half
      invariant forall p :: 0 <= p < row.Length ==>
                  row[p] == if p % jumper < half then upper else if p % jumper < half + x then lower else 1.0
    {
      FillResidue(row, x + half, jumper, lower);
      x := x + 1;
    }
  }

  /** The inner loop: `row[j] = v` for `j = x, x + t, x + 2t, ...` below the length of the row. */
  method FillResidue(row: array<real>, x: nat, t: nat, v: real)
    requires x < t
    modifies row
    ensures forall p :: 0 <= p < row.Length ==> row[p] == if p % t == x then v else old(row[p])
  {
    var j := x;
    Small(x, t);
    while j < row.Length
      invariant x <= j && j % t == x
      invariant forall p :: 0 <= p < row.Length ==> row[p] == if p % t == x && p < j then v else old(row[p])
    {
      row[j] := v;
      Step(j, t);
      Window(j, t);
      j := j + t;
    }
  }

  /** Entries after more entries have no fewer toleranced elements among them. */
  lemma {:induction false} TolCountMonotone(es: seq<Entry>, a: nat, b: nat)
    requires a <= b <= |es|
    ensures TolCount(es, a) <= TolCount(es, b)
    decreases b - a
  {
    if a < b {
      TolCountMonotone(es, a, b - 1);
    }
  }

  /** A toleranced entry before `n` has a rank below the count up to `n`. */
  lemma {:induction false} RankBelowCount(es: seq<Entry>, i: nat, n: nat)
    requires 1 <= i < n <= |es| && Tol(es[i]) > 0.0
    ensures TolCount(es, i) < TolCount(es, n)
  {
    TolCountMonotone(es, i + 1, n);
  }

  /** Every rank below the count belongs to a toleranced entry. */
  lemma {:induction false} RankExists(es: seq<Entry>, n: nat, k: nat) returns (i: nat)
    requires n <= |es| && k < TolCount(es, n)
    ensures 1 <= i < n && Tol(es[i]) > 0.0 && TolCount(es, i) == k
  {
    if k < TolCount(es, n - 1) {
      i := RankExists(es, n - 1, k);
    } else {
      i := n - 1;
    }
  }

  /** Without toleranced entries every multiplier is one. */
  lemma {:induction false} NoTolerance(es: seq<Entry>, n: nat)
    requires n <= |es| && TolCount(es, n) == 0
    ensures forall i :: 1 <= i < n ==> Tol(es[i]) <= 0.0
  {
    if n > 1 {
      NoTolerance(es, n - 1);
    }
  }

  /**
   * Two different corners take some toleranced entry to different
   * multipliers: no combination of tolerances is drawn twice.
   */
  lemma {:induction false} CornersDistinct(es: seq<Entry>, j1: nat, j2: nat) returns (i: nat)
    requires j1 < Corners(es) && j2 < Corners(es) && j1 != j2
    ensures 1 <= i < |es| && Tol(es[i]) > 0.0
    ensures TolTable(es)[i][j1] != TolTable(es)[i][j2]
  {
    var k := BitsDiffer(TolCount(es, |es|), j1, j2);
    i := RankExists(es, |es|, k);
    TolTableAt(es, i, j1);
    TolTableAt(es, i, j2);
  }

  /**
   * Every combination of upper and lower multipliers is a corner: for a
   * choice `upper[k]` for the `k`-th toleranced entry there is a column
   * taking each toleranced entry to the multiplier chosen for it.
   */
  lemma {:induction false} EveryCombinationIsACorner(es: seq<Entry>, upper: seq<bool>) returns (j: nat)
    requires |upper| == TolCount(es, |es|)
    ensures j < Corners(es)
    ensures forall i :: 1 <= i < |es| && Tol(es[i]) > 0.0 ==>
              TolCount(es, i) < |upper| &&
              TolTable(es)[i][j] == if upper[TolCount(es, i)] then 1.0 + Tol(es[i]) / 100.0 else 1.0 - Tol(es[i]) / 100.0
  {
    j := Realise(upper);
    forall i | 1 <= i < |es| && Tol(es[i]) > 0.0
      ensures TolCount(es, i) < |upper|
      ensures TolTable(es)[i][j] == if upper[TolCount(es, i)] then 1.0 + Tol(es[i]) / 100.0 else 1.0 - Tol(es[i]) / 100.0
    {
      RankBelowCount(es, i, |es|);
      TolTableAt(es, i, j);
    }
  }

  /** The index of the last column, the one drawn as the ideal arc. */
  function LastColumn(es: seq<Entry>): (xx: nat)
    ensures forall i :: 1 <= i < |es| ==> xx == |TolTable(es)[i]| - 1
  {
    if Corners(es) > 1 then Corners(es) else 0
  }

  /**
   * The last column is all ones: the ideal column when there are corners,
   * and otherwise the single column of a schematic without tolerances.
   */
  lemma {:induction false} LastColumnIsIdeal(es: seq<Entry>)
    ensures forall i :: 1 <= i < |es| ==> TolTable(es)[i][LastColumn(es)] == 1.0
  {
    if Corners(es) == 1 {
      NoTolerance(es, |es|);
    }
  }

  // ---------------------------------------------------------------------
  // The values at one corner
  // ---------------------------------------------------------------------

  /** `c` times every value. */
  function ScaledBy(xs: seq<real>, c: real): (r: seq<real>)
    ensures |r| == |xs| && forall q :: 0 <= q < |xs| ==> r[q] == c * xs[q]
  {
    seq(|xs|, q requires 0 <= q < |xs| => c * xs[q])
  }

  /** What the corner overwrite needs: a table row and an original of the same shape for each element. */
  ghost predicate CornerReady(es: seq<Entry>, table: seq<seq<real>>, original: seq<Entry>, xx: nat)
  {
    WellFormed(es) && |table| == |es| && |original| == |es| &&
    forall i :: 1 <= i < |es| ==>
      IsCurrent(original[i]) && |original[i].abs.xs| == |es[i].abs.xs| && xx < |table[i]|
  }

  /** The schematic at corner `xx`: every element's values are the original ones times its multiplier there. */
  function Cornered(es: seq<Entry>, table: seq<seq<real>>, original: seq<Entry>, xx: nat): (r: seq<Entry>)
    requires CornerReady(es, table, original, xx)
    ensures WellFormed(r) && |r| == |es| && r[0] == es[0]
    ensures forall i :: 1 <= i < |es| ==> r[i].(abs := es[i].abs) == es[i]
    ensures forall i :: 1 <= i < |es| ==> r[i].abs.xs == ScaledBy(original[i].abs.xs, table[i][xx])
  {
    seq(|es|, i requires 0 <= i < |es| =>
      if i == 0 then es[0] else es[i].(abs := Array(ScaledBy(original[i].abs.xs, table[i][xx]))))
  }

  /** At the last column, the ideal arc, the corner overwrite restores the original values. */
  lemma {:induction false} IdealCornerRestores(es: seq<Entry>)
    requires WellFormed(es)
    ensures CornerReady(es, TolTable(es), es, LastColumn(es))
    ensures Cornered(es, TolTable(es), es, LastColumn(es)) == es
  {
    LastColumnIsIdeal(es);
    var r := Cornered(es, TolTable(es), es, LastColumn(es));
    forall i | 1 <= i < |es|
      ensures r[i] == es[i]
    {
      assert r[i].abs.xs == es[i].abs.xs;
    }
  }

  /**
   * The overwrite of the element values for corner `xx`:
   * `schematic[i].abs[j] = tolElements[i][xx] * originalSchematic[i].abs[j]`
   * for every element `i` and value `j`.
   */
  method ApplyCorner(s: Schematic, table: seq<seq<real>>, original: seq<Entry>, xx: nat)
    requires CornerReady(s.entries, table, original, xx)
    modifies s
    ensures s.entries == Cornered(old(s.entries), table, original, xx)
  {
    ghost var es := s.entries;
    var i := 1;
    while i < |s.entries|
      invariant 1 <= i <= |es| && |s.entries| == |es|
      invariant forall r :: 0 <= r < |es| ==>
                  s.entries[r] == if 1 <= r < i then Cornered(es, table, original, xx)[r] else es[r]
    {
      var c := table[i][xx];
      var j := 0;
      while j < |s.entries[i].abs.xs|
        invariant |s.entries| == |es| && IsCurrent(s.entries[i])
        invariant |s.entries[i].abs.xs| == |es[i].abs.xs| && j <= |es[i].abs.xs|
        invariant s.entries[i].(abs := es[i].abs) == es[i]
        invariant forall q :: 0 <= q < |es[i].abs.xs| ==>
                    s.entries[i].abs.xs[q] == if q < j then c * original[i].abs.xs[q] else es[i].abs.xs[q]
        invariant forall r :: 0 <= r < |es| && r != i ==>
                    s.entries[r] == if 1 <= r < i then Cornered(es, table, original, xx)[r] else es[r]
      {
        var e := s.entries[i];
        s.entries := s.entries[i := e.(abs := Array(e.abs.xs[j := c * original[i].abs.xs[j]]))];
        j := j + 1;
      }
      assert forall q :: 0 <= q < |es[i].abs.xs| ==>
               s.entries[i].abs.xs[q] == ScaledBy(original[i].abs.xs, c)[q];
      assert s.entries[i].abs.xs == ScaledBy(original[i].abs.xs, c);
      i := i + 1;
    }
  }

  // ---------------------------------------------------------------------
  // The reflection coefficient
  // ---------------------------------------------------------------------

  /** An arctangent whose values lie strictly between `-PI/2` and `PI/2`. */
  ghost predicate AtanLaw(m: Libm)
  {
    forall x :: -PI / 2.0 < m.atan(x) < PI / 2.0
  }

  /** The reflection coefficient, its magnitude and its phase in degrees. */
  datatype Reflection = Reflection(re: real, im: real, mag: real, phase: real)

  /**
   * `impedanceToReflectionCoefficient(real_old, imag_old, z0)`: the
   * reflection coefficient of the impedance `(re + j im) z0`, normalised
   * to `z0`, its magnitude and its phase.
   */
  function ImpedanceToReflectionCoefficient(m: Libm, re: real, im: real, z0: real): (r: Reflection)
    requires NonZero(Complex(re * z0 + z0, im * z0))
    ensures NonZero(Add(Complex(re * z0, im * z0), Real(z0)))
    ensures Complex(r.re, r.im) == R.CalcGamma(Complex(re * z0, im * z0), z0)
    ensures r.mag == Abs(m, Complex(r.re, r.im))
    ensures r.re == 0.0 ==> r.phase == 0.0
    ensures AtanLaw(m) ==> 0.0 <= r.phase < 360.0
    ensures AtanLaw(m) && r.re < 0.0 ==> 90.0 < r.phase < 270.0
  {
    var g := Gamma(re, im, z0);
    Reflection(g.re, g.im, Abs(m, g), PhaseDegrees(m, g))
  }

  /**
   * The coefficient as the front end computes it, `(z - 1) / (z + 1)` with
   * the impedance scaled by `z0` and the reciprocal from `one_over_complex`:
   * the back end's `calc_gamma` of the impedance.
   */
  function Gamma(re: real, im: real, z0: real): (g: Complex)
    requires NonZero(Complex(re * z0 + z0, im * z0))
    ensures NonZero(Add(Complex(re * z0, im * z0), Real(z0)))
    ensures g == R.CalcGamma(Complex(re * z0, im * z0), z0)
  {
    var z := Complex(re * z0, im * z0);
    assert Add(z, Real(z0)) == Complex(re * z0 + z0, im * z0);
    var bot := OneOverComplex(re * z0 + z0, im * z0);
    var g := Complex((re * z0 - z0) * bot.re - im * z0 * bot.im, im * z0 * bot.re + (re * z0 - z0) * bot.im);
    assert Sub(z, Real(z0)) == Complex(re * z0 - z0, im * z0);
    assert g == Mul(Sub(z, Real(z0)), bot);
    g
  }

  /** The squared magnitude of a product is the product of the squared magnitudes. */
  lemma Norm2Mul(a: Complex, b: Complex)
    ensures Norm2(Mul(a, b)) == Norm2(a) * Norm2(b)
  {
    var x, y, u, v := a.re, a.im, b.re, b.im;
    calc {
      Norm2(Mul(a, b));
      (x * u - y * v) * (x * u - y * v) + (x * v + y * u) * (x * v + y * u);
      x * x * (u * u + v * v) + y * y * (u * u + v * v);
      (x * x + y * y) * (u * u + v * v);
    }
  }

  /**
   * For a positive `z0`, the coefficient lies inside the unit circle exactly
   * when the impedance has a positive real part, on it when the real part
   * is zero, and outside when it is negative.
   */
  lemma {:induction false} InsideUnitCircle(re: real, im: real, z0: real)
    requires z0 > 0.0 && NonZero(Complex(re * z0 + z0, im * z0))
    ensures Norm2(Gamma(re, im, z0)) < 1.0 <==> re > 0.0
    ensures Norm2(Gamma(re, im, z0)) == 1.0 <==> re == 0.0
  {
    var z := Complex(re * z0, im * z0);
    var a, b := Add(z, Real(z0)), Sub(z, Real(z0));
    var g := Gamma(re, im, z0);
    assert Mul(a, g) == b;
    Norm2Mul(a, g);
    Norm2Positive(a);
    NormDifference(re, im, z0);
    SquarePos(z0);
    SignOfScaled(re, z0 * z0);
    CompareScaled(Norm2(a), Norm2(g), 4.0 * re * (z0 * z0));
  }

  /** `|z + z0|^2 - |z - z0|^2 = 4 re z0^2` for `z = (re + j im) z0`. */
  lemma NormDifference(re: real, im: real, z0: real)
    ensures Norm2(Add(Complex(re * z0, im * z0), Real(z0))) - Norm2(Sub(Complex(re * z0, im * z0), Real(z0)))
            == 4.0 * re * (z0 * z0)
  {
  }

  lemma SignOfScaled(x: real, k: real)
    requires k > 0.0
    ensures 4.0 * x * k > 0.0 <==> x > 0.0
    ensures 4.0 * x * k == 0.0 <==> x == 0.0
  {
    if x > 0.0 {
      MulPos(x, k);
    } else if x < 0.0 {
      MulPos(-x, k);
    }
  }

  /** With `n > 0` and `n x = n - d`: `x < 1` exactly when `d > 0`, and `x = 1` exactly when `d = 0`. */
  lemma CompareScaled(n: real, x: real, d: real)
    requires n > 0.0 && n * x == n - d
    ensures x < 1.0 <==> d > 0.0
    ensures x == 1.0 <==> d == 0.0
  {
    assert n * (1.0 - x) == d;
    if x < 1.0 {
      MulPos(n, 1.0 - x);
    } else if x > 1.0 {
      MulPos(n, x - 1.0);
    }
  }

  /**
   * The phase in degrees: the arctangent of `im / re`, taken as 0 when the
   * real part is 0, turned by 180 degrees when the real part is negative
   * and by 360 when it is still negative, so that it lies in `[0, 360)`.
   */
  function PhaseDegrees(m: Libm, g: Complex): (p: real)
    ensures g.re == 0.0 ==> p == 0.0
    ensures AtanLaw(m) ==> 0.0 <= p < 360.0
    ensures AtanLaw(m) && g.re < 0.0 ==> 90.0 < p < 270.0
    ensures AtanLaw(m) && g.re > 0.0 ==> (0.0 <= p < 90.0 || 270.0 < p < 360.0)
  {
    var p := if g.re == 0.0 then 0.0 else Degrees(m.atan(g.im / g.re));
    var p := if g.re < 0.0 then p + 180.0 else p;
    if p < 0.0 then 360.0 + p else p
  }

  /** `360 a / (2 PI)`: an angle in degrees; one within a right angle stays within 90 degrees. */
  function Degrees(a: real): (d: real)
    ensures -PI / 2.0 < a < PI / 2.0 ==> -90.0 < d < 90.0
  {
    360.0 * a / (2.0 * PI)
  }
}
