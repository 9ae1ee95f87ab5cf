/**
 * Values as pandas holds them in a sheet, and as they travel to the database
 * in a record: missing values of three kinds, numbers, strings and timestamps.
 */
module Cells {
  import opened Wrappers
  import opened Text
  import opened Numbers

  /**
   * A pandas Timestamp, known by what the pipelines read from it: its
   * isoformat() and its str().  Both are supplied by the date parser.
   */
  datatype Stamp = Stamp(iso: string, shown: string)

  /**
   * One cell.  Null is Python's None, NaN a missing float, NaT a missing
   * timestamp.  Numbers are canonical decimals, so two numbers are equal in
   * Python exactly when they are equal here.
   */
  datatype Cell = Null | NaN | NaT | Num(n: Decimal) | Str(s: string) | Time(t: Stamp)

  /** pd.isna(value) */
  predicate IsMissing(c: Cell) { c.Null? || c.NaN? || c.NaT? }

  /** str(value) */
  function Show(c: Cell): string
  {
    match c
    case Null => "None"
    case NaN => "nan"
    case NaT => "NaT"
    case Num(d) => FloatStr(d)
    case Str(s) => s
    case Time(t) => t.shown
  }

  /** A number as pandas stores it: in canonical form. */
  function NumCell(d: Decimal): (c: Cell)
    ensures c.Num? && Canonical(c.n)
  {
    Num(Normalize(d))
  }

  /**
   * Python's a == b on two cells: NaN equals nothing, numbers compare by value
   * (canonical decimals, see CanonicalUnique), everything else by identity of value.
   */
  predicate PyEq(a: Cell, b: Cell)
  {
    !a.NaN? && !b.NaN? && (if a.Num? && b.Num? then Normalize(a.n) == Normalize(b.n) else a == b)
  }

  /** A record sent to or read from the database: column name to value. */
  type Record = map<string, Cell>

  /** dict.get(col): None when the column is absent. */
  function Lookup(r: Record, col: string): (c: Cell)
    ensures col !in r ==> c == Null
  {
    if col in r then r[col] else Null
  }

  /**
   * The column Series.apply builds from parser results (floats, NaN or None):
   * once any float is present pandas stores it as float64, so every None
   * becomes NaN; a column of None only stays as it is.
   */
  function FloatColumn(vals: seq<Cell>): (col: seq<Cell>)
    ensures |col| == |vals|
    ensures forall i | 0 <= i < |vals| :: !vals[i].Null? ==> col[i] == vals[i]
    ensures forall i | 0 <= i < |vals| :: vals[i].Null? ==> col[i] == (if HasFloat(vals) then NaN else Null)
  {
    var missing := if HasFloat(vals) then NaN else Null;
    seq(|vals|, i requires 0 <= i < |vals| => if vals[i].Null? then missing else vals[i])
  }

  predicate HasFloat(vals: seq<Cell>) { exists i | 0 <= i < |vals| :: vals[i].Num? || vals[i].NaN? }
}
