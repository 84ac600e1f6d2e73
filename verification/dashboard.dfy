/** The two request callbacks of the dashboard as pure functions: the table
    for an instrument and slider position, and the high/low summary of one
    price column of that table. */
module Dashboard {

  import opened Errors
  import opened Prices
  import opened Extrema
  import opened Window
  import opened Config

  /** The pair of values shown as "highest" and "lowest". */
  datatype Extremes = Extremes(high: int, low: int)

  /** `filter_df`: look the instrument up, then select by slider position. The
      time filter is a parameter. */
  function FilterDf(d: map<string, Frames>, stock: string, timeIndex: int,
                    filterTime: (Table, nat) -> Table): (r: Result<Table>)
    ensures stock !in d ==> r == Err(UnknownSymbol(stock))
    ensures stock in d ==> r == FilterFrames(d[stock], timeIndex, filterTime)
    ensures r.Ok? <==> stock in d && 0 <= timeIndex < 7
  {
    var frames :- LookupFrames(d, stock);
    FilterFrames(frames, timeIndex, filterTime)
  }

  /** `highest_lowest_value_update`: the largest and smallest value of the
      chosen column. A name that is not a column fails first; an empty
      selection has no extrema. */
  function HighestLowest(table: Table, ohlc: string): (r: Result<Extremes>)
    ensures r.Ok? <==> ohlc in FieldNames && |table| > 0
    ensures ohlc !in FieldNames ==> r == Err(UnknownField(ohlc))
    ensures ohlc in FieldNames && |table| == 0 ==> r == Err(NoRows)
    ensures r.Ok? ==>
      var col := Column(table, FieldOf(ohlc).value);
      && IsHighest(r.value.high, col)
      && IsLowest(r.value.low, col)
      && r.value.low <= r.value.high
  {
    var f :- FieldOf(ohlc);
    if |table| == 0 then Err(NoRows)
    else
      var col := Column(table, f);
      HighestAtLeastLowest(col);
      Ok(Extremes(Highest(col), Lowest(col)))
  }

  /** Every value of the chosen column in the selection lies between the two
      extrema, and each extremum is the value of some row. */
  lemma ExtremesBoundEveryRow(table: Table, f: Field)
    requires |table| > 0
    ensures HighestLowest(table, FieldName(f)).Ok?
    ensures var e := HighestLowest(table, FieldName(f)).value;
      && (forall i :: 0 <= i < |table| ==> e.low <= Price(table[i], f) <= e.high)
      && (exists i :: 0 <= i < |table| && Price(table[i], f) == e.high)
      && (exists i :: 0 <= i < |table| && Price(table[i], f) == e.low)
  {
  }

  /** A one-row selection shows that row's value as both highest and lowest. */
  lemma SingleRowExtremes(row: Row, f: Field)
    ensures HighestLowest([row], FieldName(f)) == Ok(Extremes(Price(row, f), Price(row, f)))
  {
  }

  /** On the "Max" position the summary is that of the whole daily table,
      whatever the time filter would have done. */
  lemma MaxSummarisesWholeHistory(d: map<string, Frames>, stock: string, f: Field,
                                  filterTime: (Table, nat) -> Table)
    requires stock in d && |d[stock].daily| > 0
    ensures FilterDf(d, stock, 6, filterTime) == Ok(d[stock].daily)
    ensures var e := HighestLowest(FilterDf(d, stock, 6, filterTime).value, FieldName(f));
      && e.Ok?
      && IsHighest(e.value.high, Column(d[stock].daily, f))
      && IsLowest(e.value.low, Column(d[stock].daily, f))
  {
  }

  /** Every request built from the option lists succeeds: a symbol of
      `stock_options_dropdown` with a key of `slider_marks` always yields a
      table, and a value of `ohlc_options` always yields extrema of a
      non-empty table. Conversely a symbol outside the catalog fails at the
      store lookup. */
  lemma OptionListRequestsSucceed(load: string -> Frames, filterTime: (Table, nat) -> Table,
                              stock: string, timeIndex: int)
    ensures (exists o :: o in DropdownOptions(SymbolDict) && o.value == stock) && timeIndex in SliderMarks()
      ==> FilterDf(DfDict(SymbolDict, load), stock, timeIndex, filterTime).Ok?
    ensures stock !in Symbols(SymbolDict) ==>
      FilterDf(DfDict(SymbolDict, load), stock, timeIndex, filterTime) == Err(UnknownSymbol(stock))
    ensures forall o, t: Table :: o in OhlcOptions() && |t| > 0 ==> HighestLowest(t, o.value).Ok?
  {
  }

  /** The keys of `slider_marks` are exactly the ordinals the selector accepts. */
  lemma SliderMarksAreSuccessDomain(frames: Frames, timeIndex: int, filterTime: (Table, nat) -> Table)
    ensures timeIndex in SliderMarks() <==> FilterFrames(frames, timeIndex, filterTime).Ok?
  {
  }
}
