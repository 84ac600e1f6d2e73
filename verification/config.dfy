/** The dashboard's fixed configuration: the instrument catalog, the table
    store built from it, and the option lists defined beside them. */
module Config {

  import opened Errors
  import opened Prices

  /** A catalog entry: a ticker symbol and its display name. */
  datatype Instrument = Instrument(symbol: string, name: string)

  /** The catalog, in its declaration order. */
  const SymbolDict: seq<Instrument> := [
    Instrument("AAPL", "Apple"),
    Instrument("NVDA", "Nvidia"),
    Instrument("TSLA", "Tesla"),
    Instrument("IBM", "IBM")
  ]

  /** No symbol appears twice, as for the keys of a dictionary. */
  predicate DistinctSymbols(catalog: seq<Instrument>)
  {
    forall i, j :: 0 <= i < j < |catalog| ==> catalog[i].symbol != catalog[j].symbol
  }

  function Symbols(catalog: seq<Instrument>): set<string>
  {
    set i | 0 <= i < |catalog| :: catalog[i].symbol
  }

  /** The table store: one entry per catalog symbol, holding what the loader
      returns for it. The loader is a parameter of the model. */
  function DfDict(catalog: seq<Instrument>, load: string -> Frames): (d: map<string, Frames>)
    ensures d.Keys == Symbols(catalog)
    ensures forall s :: s in d ==> d[s] == load(s)
  {
    map s | s in Symbols(catalog) :: load(s)
  }

  /** Reading the store: an unknown symbol fails with a missing-key error. */
  function LookupFrames(d: map<string, Frames>, stock: string): (r: Result<Frames>)
    ensures r.Ok? <==> stock in d
    ensures r.Ok? ==> r.value == d[stock]
    ensures r.Err? ==> r.error == UnknownSymbol(stock)
  {
    if stock in d then Ok(d[stock]) else Err(UnknownSymbol(stock))
  }

  /** An entry of an option list, a `{"label": …, "value": …}` pair; `text`
      is the entry's label. */
  datatype Option = Option(text: string, value: string)

  /** One dropdown entry per catalog entry, in catalog order, labelled with
      the display name and carrying the symbol. */
  function DropdownOptions(catalog: seq<Instrument>): (opts: seq<Option>)
    ensures |opts| == |catalog|
    ensures forall i :: 0 <= i < |catalog| ==>
      opts[i].text == catalog[i].name && opts[i].value == catalog[i].symbol
  {
    seq(|catalog|, i requires 0 <= i < |catalog| => Option(catalog[i].name, catalog[i].symbol))
  }

  /** The price-field options: each column name is both label and value. */
  function OhlcOptions(): seq<Option>
  {
    seq(|FieldNames|, i requires 0 <= i < |FieldNames| => Option(FieldNames[i], FieldNames[i]))
  }

  /** The slider labels, in slider order. */
  const MarkLabels: seq<string> := ["1 day", "1 week", "1 month", "3 months", "1 year", "5 year", "Max"]

  /** The slider marks: position `i` carries `MarkLabels[i]`. */
  function SliderMarks(): map<int, string>
  {
    map i | 0 <= i < |MarkLabels| :: MarkLabels[i]
  }

  /** The catalog has four distinct symbols. */
  lemma CatalogIsDictionary()
    ensures DistinctSymbols(SymbolDict)
    ensures Symbols(SymbolDict) == {"AAPL", "NVDA", "TSLA", "IBM"}
  {
    assert SymbolDict[0].symbol == "AAPL";
    assert SymbolDict[1].symbol == "NVDA";
    assert SymbolDict[2].symbol == "TSLA";
    assert SymbolDict[3].symbol == "IBM";
  }

  /** The dropdown offers exactly the symbols the store holds, so every
      choice the dropdown can make is found in the store, and each entry
      carries the display name of its symbol. */
  lemma DropdownMatchesStore(catalog: seq<Instrument>, load: string -> Frames)
    ensures forall o :: o in DropdownOptions(catalog) ==> o.value in DfDict(catalog, load)
    ensures forall s :: s in DfDict(catalog, load) ==>
      exists o :: o in DropdownOptions(catalog) && o.value == s
    ensures forall o :: o in DropdownOptions(catalog) ==>
      Instrument(o.value, o.text) in catalog
  {
    var opts := DropdownOptions(catalog);
    forall s | s in DfDict(catalog, load)
      ensures exists o :: o in opts && o.value == s
    {
      var i :| 0 <= i < |catalog| && catalog[i].symbol == s;
      assert opts[i] in opts;
    }
    forall o | o in opts
      ensures o.value in Symbols(catalog) && Instrument(o.value, o.text) in catalog
    {
      var i :| 0 <= i < |opts| && opts[i] == o;
      assert catalog[i] == Instrument(o.value, o.text);
    }
  }

  /** The field options are open, high, low and close, in that order, and
      every option's value names a column. */
  lemma OhlcOptionsAreFields()
    ensures |OhlcOptions()| == 4
    ensures OhlcOptions()[0].value == "open" && OhlcOptions()[1].value == "high"
    ensures OhlcOptions()[2].value == "low" && OhlcOptions()[3].value == "close"
    ensures forall o :: o in OhlcOptions() ==> o.text == o.value && FieldOf(o.value).Ok?
  {
  }

  /** `slider_marks` has exactly the keys 0 to 6, labelled in order. */
  lemma SliderMarksShape()
    ensures forall i :: i in SliderMarks() <==> 0 <= i < 7
    ensures SliderMarks()[0] == "1 day" && SliderMarks()[1] == "1 week"
    ensures SliderMarks()[2] == "1 month" && SliderMarks()[3] == "3 months"
    ensures SliderMarks()[4] == "1 year" && SliderMarks()[5] == "5 year"
    ensures SliderMarks()[6] == "Max"
  {
  }
}
