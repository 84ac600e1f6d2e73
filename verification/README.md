# stocky-dashboard: the request pipeline in Dafny

The stocky-dashboard shows historical prices for four instruments. A user picks
an instrument, a lookback window and a price field (open, high, low or close)
through widgets built by a separate layout module. The dashboard then shows a
line chart and the highest and lowest value of that field over the window.

This project models the pure logic inside the two request callbacks of
`main.py` and the fixed configuration they rely on:

- `errors.dfy` (`Errors`): the failure outcomes. An unknown symbol, slider
  position or column name is a `KeyError` in the source. The fourth outcome,
  `NoRows`, exists only in the model: it stands for the NaN the source shows
  as "$nan" on an empty selection (see `Dashboard.HighestLowest` under
  "Left out").
- `prices.dfy` (`Prices`): rows with whole-cent prices, a table as a sequence
  of rows, the pair of tables per instrument (daily first, intraday second, as
  `df_dict[stock]` unpacks), and column lookup by name.
- `extrema.dfy` (`Extrema`): the maximum and minimum of a non-empty column,
  specified by "occurs in the column and bounds every value".
- `window.dfy` (`Window`): the window selector of `filter_df`. A slider
  ordinal picks the table and either keeps it or calls the time filter with a
  day count. The selector is written as the source writes it: a `<= 2`
  resolution test, a `days` dictionary and a bypass for ordinal 6. It is
  proved equal to a table of settings whose day counts are read off the
  slider labels and whose resolutions are taken from the code's `<= 2` test.
  The time filter is a function-valued parameter. The choice between "keep"
  and "call the time filter" is also returned as a `Plan` value, so the model
  can state which table and which day count the filter receives, and that
  ordinal 6 never calls it.
- `config.dfy` (`Config`): the instrument catalog, the table store built from
  it, the dropdown options, the field options and the slider marks.
- `dashboard.dfy` (`Dashboard`): `filter_df` and `highest_lowest_value_update`
  as functions, and the end-to-end lemmas: every request built from main.py's
  option lists succeeds, and the "Max" position summarises the whole daily
  history.

The code tests `time_index <= 2` (main.py:58), so ordinal 2 ("1 month") reads
the intraday table.

## Model

| member | source | states |
|---|---|---|
| Window.PlanFor | main.py:58-62 | The selector succeeds exactly for ordinals 0..6. On success it returns the plan the slider setting describes: the table, and either the day count its label names or keep. Any other ordinal fails with a missing-key error naming that ordinal. |
| Window.FilterFrames | main.py:58-62 | For a given instrument's tables and any time filter, the returned table is the one the slider setting describes. Whenever `filter_time` returns, the call succeeds exactly for ordinals 0..6, and every other ordinal fails with a missing-key error. |
| Window.ResolutionSplit | main.py:58 | Ordinals 0, 1 and 2 read the intraday table; ordinals 3 to 6 read the daily table. |
| Window.LookbackDays | main.py:60-62 | Ordinals 0 to 5 call the time filter with 1, 7, 30, 90, 365 and 1825 days respectively. |
| Window.MaxKeepsDaily | main.py:62 | Only ordinal 6 skips the time filter. For ordinal 6 the daily table comes back unchanged, whatever the time filter is. |
| Window.DaysMapDomain | main.py:60 | The `days` dictionary holds exactly the ordinals 0 to 5. |
| Window.OutOfRangeFails | main.py:58-62 | Negative ordinals and ordinals from 7 up fail with a missing-key error and produce no table. |
| Config.DfDict | main.py:21 | The store has exactly the catalog's symbols as keys, and each holds what the loader returns for that symbol. |
| Config.LookupFrames | main.py:56 | A store lookup succeeds exactly for stored symbols and returns their tables; any other symbol fails with a missing-key error naming it. |
| Config.DropdownOptions | main.py:23-25 | One dropdown entry per catalog entry, in catalog order, labelled with the display name and carrying the symbol. |
| Config.CatalogIsDictionary | main.py:19 | The catalog's symbols are distinct and are exactly AAPL, NVDA, TSLA and IBM. |
| Config.DropdownMatchesStore | main.py:19-25 | Every dropdown value is a key of the store, and every store key is offered by the dropdown. Each entry pairs a catalog symbol with that symbol's display name. |
| Config.OhlcOptionsAreFields | main.py:27-29 | The field options are open, high, low and close in that order. Each has its label equal to its value, and each value names a column. |
| Config.SliderMarksShape | main.py:31-36 | The slider marks have exactly the keys 0..6, labelled "1 day", "1 week", "1 month", "3 months", "1 year", "5 year", "Max" in order. |
| Prices.FieldOf | main.py:75 | Looking a column up by name succeeds exactly for the four price-column names and returns the field with that name. Any other name fails with a missing-key error naming it. |
| Prices.FieldNameRoundTrip | main.py:27-29 | Every field's name is one of the listed column names, and looking that name up gives the field back. |
| Prices.Column | main.py:75-76 | The column `dff[ohlc]` has one value per row of the selection, and value `i` is row `i`'s price in that field. |
| Extrema.Highest | main.py:75 | The maximum of a non-empty column occurs in the column and is at least every value in it. |
| Extrema.Lowest | main.py:76 | The minimum of a non-empty column occurs in the column and is at most every value in it. |
| Extrema.HighestIsUnique | main.py:75 | Any value that occurs in the column and bounds it above equals the computed maximum. So the answer does not depend on row order or on ties. |
| Extrema.LowestIsUnique | main.py:76 | Any value that occurs in the column and bounds it below equals the computed minimum. |
| Extrema.HighestAtLeastLowest | main.py:75-76 | On a non-empty column the maximum is at least the minimum. |
| Extrema.SingletonExtrema | main.py:75-76 | On a single value, the maximum and the minimum are both that value. |
| Dashboard.FilterDf | main.py:55-62 | An unknown symbol fails at the store lookup, before the ordinal is looked at. A known symbol gives the selector's outcome on its tables. Whenever `filter_time` returns, the request succeeds exactly for a stored symbol with an ordinal in 0..6. |
| Dashboard.HighestLowest | main.py:73-76 | An unknown column name fails first. An empty selection has no extrema. Otherwise the result holds the column's maximum and minimum, both occurring in the column and bounding it, with highest ≥ lowest. |
| Dashboard.ExtremesBoundEveryRow | main.py:75-76 | For a non-empty selection and any field, every row's value lies between lowest and highest, and some row attains each. |
| Dashboard.SingleRowExtremes | main.py:75-76 | A one-row selection shows that row's value as both highest and lowest. |
| Dashboard.MaxSummarisesWholeHistory | main.py:62-76 | On the "Max" position the table is the whole daily table. Summarising that output succeeds, and its highest and lowest values occur in the chosen column of the whole daily table and bound every value of it. |
| Dashboard.OptionListRequestsSucceed | main.py:19-62 | Whenever `filter_time` returns, any value of `stock_options_dropdown` with any key of `slider_marks` yields a table, and any value of `ohlc_options` on a non-empty table yields extrema. A symbol outside the catalog fails at the store lookup. |
| Dashboard.SliderMarksAreSuccessDomain | main.py:31-62 | An ordinal is a key of `slider_marks` exactly when the selector succeeds on it. |

## Left out

- The time filter `filter_time` (`time_filtering.py` is not part of this model) is a function-valued parameter. The model says how it is called, not what it returns, so the range-selection, completeness and idempotence properties of the time filter are not stated.
- `filter_time` is assumed to return normally and to depend only on its arguments. An exception it might raise (for example on an empty table) is not modelled, so the success claims of `Window.FilterFrames`, `Dashboard.FilterDf` and `Dashboard.OptionListRequestsSucceed` hold whenever `filter_time` returns.
- Window.FilterFrames: its success for ordinals 0..6 assumes `filter_time` returns; an exception from `filter_time` is not modelled.
- Dashboard.FilterDf: its success for a stored symbol and ordinal 0..6 assumes `filter_time` returns.
- Dashboard.OptionListRequestsSucceed: every request built from the option lists yields a table only when `filter_time` returns.
- Dashboard.OptionListRequestsSucceed: the widgets are built by `Layout(symbol_dict)` (main.py:47), which is not modelled. main.py defines `stock_options_dropdown`, `ohlc_options` and `slider_marks` but never passes them to the layout. The lemma is about those lists, and it covers the widgets only if the layout offers the same options. The same holds for Dashboard.SliderMarksAreSuccessDomain.
- The loader `StockData.stock_dataframe` and the data directory (`load_data.py` is not part of this model) are a function-valued parameter of `Config.DfDict`. Sorting, duplicate-timestamp handling and missing-data errors of the loader are not modelled.
- Prices are whole cents (`int`) and timestamps an opaque `int` ordering key. The source uses floating-point prices and pandas timestamps.
- The table schema is the four price columns. Any further column the loaded data may carry (such as a volume column) is not modelled, so such a name fails at column lookup in the model.
- Dashboard.HighestLowest: on an empty selection pandas returns NaN and the source displays "$nan". The model returns the `NoRows` outcome instead of a number.
- The `"$…:.2f"` formatting of the two values (main.py:77) is not modelled: it is float formatting.
- The JSON round trip between the callbacks (`to_json` / `read_json`, main.py:64, 74, 87) is treated as the identity on tables. It is library serialisation.
- Non-integer or missing widget values (for example `None` before a selection) are not modelled. The model takes the symbol as a string, the ordinal as an integer and the field name as a string.
- The Dash application, callback wiring, layout (main.py:38-54, 67-72, 80-85, 91-92) and the Plotly chart of `update_graph` (main.py:86-88) are framework glue and rendering.
- Config.DfDict: the store is a Dafny `map`, which has no key order. The source's dictionary keeps catalog order, but nothing in the pipeline depends on that order.
