/** `DataProcessor` of src/data_processor.py: cleaning a raw frame and the
    summary metrics of the price and occupancy columns. */
module DataProcessor {
  import opened Common
  import opened Frames

  /** `pd.to_numeric(column, errors='coerce')` on a column that
      `select_dtypes(include=[np.number])` selected: numbers and missing
      cells stay, anything else would become missing. */
  function ToNumeric(col: Column): (r: Column)
    ensures r.kind == Numeric && ColumnTyped(r) && |r.cells| == |col.cells|
    ensures forall i :: 0 <= i < |col.cells| ==>
      r.cells[i] == (if col.cells[i].Num? then col.cells[i] else Missing)
  {
    Column(Numeric, seq(|col.cells|, (i: int) requires 0 <= i < |col.cells| =>
      if col.cells[i].Num? then col.cells[i] else Missing))
  }

  /** A numeric column goes through to_numeric unchanged. */
  lemma {:induction false} ToNumericKeepsNumbers(col: Column)
    requires col.kind == Numeric && ColumnTyped(col)
    ensures ToNumeric(col) == col
  {
    var r := ToNumeric(col);
    forall i | 0 <= i < |col.cells| ensures r.cells[i] == col.cells[i] {
      assert CellFits(Numeric, col.cells[i]);
    }
  }

  /** `clean_data`: every numeric column through to_numeric, then the `date`
      column, if any, through to_datetime. Frames are values, so the caller's
      frame is untouched, as `df.copy()` ensures in the source. */
  method CleanData(df: Frame, toDatetime: DateParser) returns (clean: Frame)
    requires WellFormed(df)
    ensures WellFormed(clean) && clean.names == df.names && clean.height == df.height
    ensures clean.columns.Keys == df.columns.Keys
    ensures forall n :: n in df.columns && n != "date" ==> clean.columns[n] == df.columns[n]
    ensures "date" in df.columns ==>
      clean.columns["date"] == ToDatetime(toDatetime, df.columns["date"])
  {
    clean := df;
    for k := 0 to |df.names|
      invariant WellFormed(clean) && clean.names == df.names && clean.height == df.height
      invariant clean.columns == df.columns
    {
      var name := df.names[k];
      var col := clean.columns[name];
      if col.kind == Numeric {
        ToNumericKeepsNumbers(col);
        clean := SetColumn(clean, name, ToNumeric(col));
      }
    }
    if "date" in clean.columns {
      clean := SetColumn(clean, "date", ToDatetime(toDatetime, clean.columns["date"]));
    }
  }

  /** The summary metrics under the keys the source uses. */
  const AvgPrice := "avg_price"
  const MaxPrice := "max_price"
  const MinPrice := "min_price"
  const AvgOccupancy := "avg_occupancy"

  /** The present numbers of a column, or a TypeError where pandas' mean raises. */
  function ColumnNumbers(df: Frame, name: string): (r: Result<seq<real>>)
    requires name in df.columns
    ensures r.Failure? <==> NumericValues(df.columns[name].cells).None?
    ensures r.Failure? ==> r.error == TypeError
    ensures r.Success? ==> r.value == NumericValues(df.columns[name].cells).value
  {
    match NumericValues(df.columns[name].cells)
    case None => Failure(TypeError)
    case Some(vs) => Success(vs)
  }

  /** `calculate_metrics`: the mean, maximum and minimum of `price` when that
      column exists and the mean of `occupancy_rate` when that one does; a
      metric is None (NaN) when its column has no value, and a text cell
      makes the aggregation raise. */
  method CalculateMetrics(df: Frame) returns (r: Result<map<string, Option<real>>>)
    ensures r.Failure? <==>
      ("price" in df.columns && NumericValues(df.columns["price"].cells).None?) ||
      ("occupancy_rate" in df.columns && NumericValues(df.columns["occupancy_rate"].cells).None?)
    ensures r.Failure? ==> r.error == TypeError
    ensures r.Success? ==> r.value.Keys <= {AvgPrice, MaxPrice, MinPrice, AvgOccupancy}
    ensures r.Success? ==> (AvgPrice in r.value <==> "price" in df.columns)
    ensures r.Success? ==> (MaxPrice in r.value <==> "price" in df.columns)
    ensures r.Success? ==> (MinPrice in r.value <==> "price" in df.columns)
    ensures r.Success? ==> (AvgOccupancy in r.value <==> "occupancy_rate" in df.columns)
    ensures r.Success? && "price" in df.columns ==>
      var vs := NumericValues(df.columns["price"].cells).value;
      && r.value[AvgPrice] == MeanSkipNa(vs)
      && r.value[MaxPrice] == MaxSkipNa(vs)
      && r.value[MinPrice] == MinSkipNa(vs)
    ensures r.Success? && "price" in df.columns && r.value[AvgPrice].Some? ==>
      && r.value[MaxPrice].Some? && r.value[MinPrice].Some?
      && r.value[MinPrice].value <= r.value[AvgPrice].value <= r.value[MaxPrice].value
    ensures r.Success? && "occupancy_rate" in df.columns ==>
      r.value[AvgOccupancy] == MeanSkipNa(NumericValues(df.columns["occupancy_rate"].cells).value)
  {
    var metrics: map<string, Option<real>> := map[];
    if "price" in df.columns {
      var prices := ColumnNumbers(df, "price");
      if prices.Failure? {
        return Failure(prices.error);
      }
      var vs := prices.value;
      metrics := metrics[AvgPrice := MeanSkipNa(vs)];
      metrics := metrics[MaxPrice := MaxSkipNa(vs)];
      metrics := metrics[MinPrice := MinSkipNa(vs)];
    }
    if "occupancy_rate" in df.columns {
      var occupancies := ColumnNumbers(df, "occupancy_rate");
      if occupancies.Failure? {
        return Failure(occupancies.error);
      }
      metrics := metrics[AvgOccupancy := MeanSkipNa(occupancies.value)];
    }
    return Success(metrics);
  }
}
