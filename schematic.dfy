/**
 * The front end's `schematic`: the list the Smith-chart tool edits.  Entry 0
 * holds the chart settings (frequency, span, reference impedance, relative
 * permittivity, single-ended or differential, and the frequency and span
 * unit multipliers); every later entry is a circuit element, entry 1 being
 * the black box whose impedance the chart starts from.
 *
 * An element's `abs` holds its values and `unit` their unit labels.  Files
 * saved by older versions stored a single value and a single label rather
 * than arrays, so both are a `Field`, and `Valid` says that every element
 * of the list the tool works on has arrays.
 */
module Schematics {
  import opened Wrappers

  /** A property that holds one value, or an array of them. */
  datatype Field<T> = Scalar(x: T) | Array(xs: seq<T>)

  /** The property as an array: a single value is read as a one-element array. */
  function AsSeq<T>(f: Field<T>): (r: seq<T>)
    ensures f.Array? ==> r == f.xs
    ensures f.Scalar? ==> r == [f.x]
  {
    match f
    case Scalar(x) => [x]
    case Array(xs) => xs
  }

  /** The lookup table of a `customZ` element, its interpolation and the text it was read from. */
  datatype Custom = Custom(lut: seq<(real, real, real)>, interp: string, raw: string)

  /** `schematic[0]`: the chart settings. */
  datatype Settings = Settings(freq: real, span: real, z0: real, er: real, imp: string,
                               freqMultiplier: real, spanMultiplier: real)

  /**
   * An entry of the schematic.  `lineLength` and `lineZo` are the
   * properties of the transmission-line elements, `custom` that of
   * `customZ`, and `absBbI` the imaginary part a black box of an older file
   * kept outside `abs`.
   */
  datatype Entry =
    | Head(settings: Settings)
    | Element(kind: string, re: real, im: real, abs: Field<real>, unit: Field<string>,
              tol: real, lineLength: Option<real>, lineZo: Option<real>, custom: Option<Custom>,
              absBbI: Option<real>)

  /** An element in the form the tool works on: values and labels are arrays. */
  predicate IsCurrent(e: Entry)
  {
    e.Element? && e.abs.Array? && e.unit.Array?
  }

  /** The tolerance of an entry, in percent; the settings entry has none. */
  function Tol(e: Entry): real
  {
    if e.Element? then e.tol else 0.0
  }

  /** A schematic the tool can edit: the settings, the black box, and elements in current form. */
  ghost predicate WellFormed(es: seq<Entry>)
  {
    |es| >= 2 && es[0].Head? && forall i :: 1 <= i < |es| ==> IsCurrent(es[i])
  }

  /** The schematic, which the front end's functions update in place. */
  class Schematic {
    var entries: seq<Entry>

    ghost predicate Valid()
      reads this
    {
      WellFormed(entries)
    }

    /** A schematic of the settings and the black box. */
    constructor(settings: Settings, blackBox: Entry)
      requires IsCurrent(blackBox)
      ensures entries == [Head(settings), blackBox]
      ensures Valid()
    {
      entries := [Head(settings), blackBox];
    }
  }
}
