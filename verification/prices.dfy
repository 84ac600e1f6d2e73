/** Price tables: one instrument at one resolution. */
module Prices {

  import opened Errors

  /** One row of a table. `time` is the ordering key, kept opaque; prices are
      whole cents. */
  datatype Row = Row(time: int, open: int, high: int, low: int, close: int)

  /** An ordered sequence of rows, as read back from the transport form. */
  type Table = seq<Row>

  /** The two tables the loader keeps per instrument, in the order the
      loader returns them: daily first, intraday second. */
  datatype Frames = Frames(daily: Table, intraday: Table)

  /** The four selectable price columns. */
  datatype Field = Open | High | Low | Close

  /** The price of `row` in column `f`. */
  function Price(row: Row, f: Field): int
  {
    match f
    case Open => row.open
    case High => row.high
    case Low => row.low
    case Close => row.close
  }

  /** The column `f` of `table`, row by row. */
  function Column(table: Table, f: Field): (col: seq<int>)
    ensures |col| == |table|
    ensures forall i :: 0 <= i < |table| ==> col[i] == Price(table[i], f)
  {
    seq(|table|, i requires 0 <= i < |table| => Price(table[i], f))
  }

  /** The column names a price table carries, in the order the field
      selector lists them. */
  const FieldNames: seq<string> := ["open", "high", "low", "close"]

  /** The column name of a field. */
  function FieldName(f: Field): string
  {
    match f
    case Open => "open"
    case High => "high"
    case Low => "low"
    case Close => "close"
  }

  /** Looking a column up by name, as `dff[ohlc]` does: a name that is not a
      column fails with a missing-key error. */
  function FieldOf(name: string): (r: Result<Field>)
    ensures r.Ok? <==> name in FieldNames
    ensures r.Ok? ==> FieldName(r.value) == name
    ensures r.Err? ==> r.error == UnknownField(name)
  {
    if name == "open" then Ok(Open)
    else if name == "high" then Ok(High)
    else if name == "low" then Ok(Low)
    else if name == "close" then Ok(Close)
    else Err(UnknownField(name))
  }

  /** Naming a field and looking the name up again gives back the field, so
      the four names and the four fields correspond one to one. */
  lemma FieldNameRoundTrip(f: Field)
    ensures FieldOf(FieldName(f)) == Ok(f)
    ensures FieldName(f) in FieldNames
  {
  }
}
