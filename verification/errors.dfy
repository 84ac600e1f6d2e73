/** Failure outcomes of the dashboard's request pipeline.

    The first three are Python `KeyError`s raised by a dictionary or column
    lookup in the source; the model keeps one constructor per lookup so that a
    contract can say which lookup failed. `NoRows` has no counterpart there:
    on an empty selection pandas yields NaN and the dashboard shows "$nan",
    and the model reports that case as an outcome of its own. */
module Errors {

  datatype Error =
    | UnknownSymbol(symbol: string)   // `df_dict[stock]` with a symbol outside the catalog
    | UnknownWindow(ordinal: int)     // `days[time_index]` with an ordinal outside 0..5 (and not 6)
    | UnknownField(name: string)      // `dff[ohlc]` with a column name that is not a price field
    | NoRows                          // extrema of an empty selection (the source shows NaN, raises nothing)

  datatype Result<+T> = Ok(value: T) | Err(error: Error) {

    predicate IsFailure() {
      Err?
    }

    function PropagateFailure<U>(): Result<U>
      requires Err?
    {
      Err(error)
    }

    function Extract(): T
      requires Ok?
    {
      value
    }
  }
}
