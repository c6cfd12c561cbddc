/**
 * What the collectors read and write: JSON cells as they arrive from an
 * exchange API, JavaScript's `Number(...)` conversion of a cell, and the
 * parameters of the `INSERT OR IGNORE INTO asset_candles` statement.
 */
module CandleRows {
  import opened Numeric

  /** A JSON value as a collector receives it. */
  datatype Raw =
    | Num(v: real)                              // a JSON number (always finite)
    | Text(s: string, reading: Option<real>)    // a string, with the finite number `Number(s)` reads from it, if any
    | Null
    | Undefined                                 // a missing property, or an index past the end of an array
    | Bool(b: bool)
    | Arr(items: seq<Raw>)
    | Obj                                       // any other object

  /**
   * `Number(x)` where it is finite; None where it is NaN or infinite. A null
   * reads as 0 and a boolean as 0 or 1, while undefined is NaN. An array
   * reads as the number of its text (`join(",")`): the empty array is 0, an
   * array of two or more items has a comma and is NaN, and a single item
   * reads as its own text, where null and undefined are empty (0), a boolean
   * is "true" or "false" (NaN) and a plain object is "[object Object]" (NaN).
   */
  function ToNumber(x: Raw): Option<real>
  {
    match x
    case Num(v) => Some(v)
    case Text(_, reading) => reading
    case Null => Some(0.0)
    case Undefined => None
    case Bool(b) => Some(if b then 1.0 else 0.0)
    case Arr(items) =>
      if |items| == 0 then Some(0.0)
      else if |items| > 1 then None
      else if items[0].Null? || items[0].Undefined? then Some(0.0)
      else if items[0].Bool? then None
      else ToNumber(items[0])
    case Obj => None
  }

  /** Arrays read as JavaScript reads them: `Number([])` and `Number([null])` are 0, `Number([x])` is `Number(x)` for a number or text x, and a comma makes NaN. */
  lemma ArrayReadings(x: Raw, y: Raw)
    requires x.Num? || x.Text? || x.Arr? || x.Obj?
    ensures ToNumber(Arr([])) == Some(0.0)
    ensures ToNumber(Arr([Null])) == Some(0.0) && ToNumber(Arr([Undefined])) == Some(0.0)
    ensures ToNumber(Arr([Bool(true)])).None? && ToNumber(Arr([Bool(false)])).None?
    ensures ToNumber(Arr([x])) == ToNumber(x)
    ensures ToNumber(Arr([x, y])).None?
  {
  }

  /** The named parameters of one candle INSERT; a non-finite volume is stored as NULL (None). */
  datatype CandleRow = CandleRow(assetName: string, dataSource: string, interval: string, timestamp: real,
                                 open: real, high: real, low: real, close: real, volume: Option<real>)

  /** `Array.isArray(x) ? x : []` */
  function ArrayOrEmpty(x: Raw): seq<Raw>
  {
    if x.Arr? then x.items else []
  }

  /** `column[i]`, which is undefined past the end of the column. */
  function At(column: seq<Raw>, i: nat): Raw
  {
    if i < |column| then column[i] else Undefined
  }
}
