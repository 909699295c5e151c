/** The upload path of app/streamlit_app.py: cleaning a numeric series,
    reading the rows of a hotel PDF report into a table, choosing a reader by
    file suffix, and the clamped 30-day fallback predictor.  The PDF
    extraction itself (tabula) and `pd.to_datetime` are inputs: the tables
    tabula returns, as the texts `str(cell)` gives, and the date parsers. */
module UploadApp {
  import opened Common
  import opened Calendar
  import opened Frames
  import opened RowText

  // ---------------------------------------------------------------------------
  // clean_numeric_series

  /** One cell of `pd.to_numeric(series.astype(str).str.replace(',', '.'), errors='coerce')`:
      a number's text reads back as the number, a text reads with ',' as
      '.', and what does not read, a missing value or a date, is missing. */
  function CoerceCell(c: Cell): (r: Cell)
    ensures r.Num? || r.Missing?
    ensures c.Num? ==> r == c
  {
    match c
    case Num(_) => c
    case Text(s) =>
      (match FloatOf(s)
       case Some(x) => Num(x)
       case None => Missing)
    case _ => Missing
  }

  /** `clean_numeric_series`: a numeric series unchanged, any other series
      converted cell by cell into a numeric one. */
  function CleanNumericSeries(col: Column): (r: Column)
    ensures col.kind == Numeric ==> r == col
    ensures r.kind == Numeric && |r.cells| == |col.cells|
    ensures col.kind != Numeric ==> ColumnTyped(r) && forall i :: 0 <= i < |col.cells| ==> r.cells[i] == CoerceCell(col.cells[i])
  {
    if col.kind == Numeric then col
    else Column(Numeric, seq(|col.cells|, (i: int) requires 0 <= i < |col.cells| => CoerceCell(col.cells[i])))
  }

  /** Cleaning twice is cleaning once. */
  lemma {:induction false} CleanNumericSeriesIdempotent(col: Column)
    ensures CleanNumericSeries(CleanNumericSeries(col)) == CleanNumericSeries(col)
  {
  }

  /** A decimal comma reads as a decimal point; what is not a number is missing. */
  lemma {:induction false} CommaDecimals()
    ensures CoerceCell(Text("12,5")) == Num(12.5)
  {
    var t := "12,5";
    DigitRunFrom(t, 0, 2);
    assert t[..2] == "12" && t[3..] == "5";
    assert DigitsValue("12") == 12 && DigitsValue("5") == 5;
    TokenFloat(t);
  }

  // ---------------------------------------------------------------------------
  // The row loop of parse_hotel_pdf

  /** `re.search(r'(\d{2}\.\d{2}\.\d{2,4})', text).group(1)`. */
  function LongDateText(text: string): (r: Option<string>)
    ensures r.None? <==> FindDate(text, 0).None?
    ensures r.Some? ==> r.value == text[FindDate(text, 0).value..LongDateEnd(text, FindDate(text, 0).value)]
  {
    match FindDate(text, 0)
    case None => None
    case Some(a) => Some(text[a..LongDateEnd(text, a)])
  }

  /** One iteration of the row loop: the record a row adds, or None where
      the row is skipped. */
  function RowRecord(cells: seq<string>, parseDayFirst: string -> Option<Date>): Option<HotelRecord>
  {
    var text := JoinCells(cells);
    if IsBlank(text) then None
    else
      match LongDateText(text)
      case None => None
      case Some(dateText) =>
        match parseDayFirst(dateText)
        case None => None
        case Some(date) =>
          match Numbers(text)
          case None => None
          case Some(numbers) =>
            if |numbers| >= 12 then Some(RecordOf(date, numbers)) else None
  }

  /** A row yields a record exactly when its joined text is not blank, holds
      a date pandas reads and has at least 12 number tokens; the record takes
      the 7th, 8th, 9th (as a fraction), 11th and 12th token values. */
  lemma {:induction false} RowRecordSpec(cells: seq<string>, parseDayFirst: string -> Option<Date>)
    ensures RowRecord(cells, parseDayFirst).Some? <==>
      var text := JoinCells(cells);
      && !IsBlank(text) && LongDateText(text).Some?
      && parseDayFirst(LongDateText(text).value).Some? && |Tokens(text)| >= 12
    ensures RowRecord(cells, parseDayFirst).Some? ==>
      var r := RowRecord(cells, parseDayFirst).value;
      var text := JoinCells(cells);
      var tokens := Tokens(text);
      && |tokens| >= 12 && (forall k :: 0 <= k < |tokens| ==> IsNumberToken(tokens[k]))
      && r.date == parseDayFirst(LongDateText(text).value).value
      && r.roomsOccupied == TokenValue(tokens[6])
      && r.roomsTotal == TokenValue(tokens[7])
      && r.occupancyRate == TokenValue(tokens[8]) / 100.0
      && r.price == TokenValue(tokens[10])
      && r.revenue == TokenValue(tokens[11])
  {
    NumbersAreTokenValues(JoinCells(cells));
  }

  /** The row reader of this parser, as a value. */
  function RowReader(parseDayFirst: string -> Option<Date>): seq<string> -> Option<HotelRecord>
  {
    cells => RowRecord(cells, parseDayFirst)
  }

  function Records(rows: seq<seq<string>>, parseDayFirst: string -> Option<Date>): seq<HotelRecord>
  {
    RecordsOf(rows, RowReader(parseDayFirst))
  }

  /** The body of the row loop, with its early `continue`s. */
  method ReadRow(row: seq<string>, parseDayFirst: string -> Option<Date>) returns (record: Option<HotelRecord>)
    ensures record == RowRecord(row, parseDayFirst)
  {
    var text := JoinCells(row);
    if IsBlank(text) {
      return None;
    }
    var dateText := LongDateText(text);
    if dateText.None? {
      return None;
    }
    var date := parseDayFirst(dateText.value);
    if date.None? {
      return None;
    }
    var numbers := Numbers(text);
    if numbers.None? {
      return None;
    }
    if |numbers.value| < 12 {
      return None;
    }
    return Some(RecordOf(date.value, numbers.value));
  }

  /** The row loop of `parse_hotel_pdf`: one record per valid row, in row
      order. */
  method ReadRecords(rows: seq<seq<string>>, parseDayFirst: string -> Option<Date>) returns (records: seq<HotelRecord>)
    ensures records == Records(rows, parseDayFirst)
  {
    records := [];
    for k := 0 to |rows|
      invariant records == Records(rows[..k], parseDayFirst)
    {
      RecordsOfStep(rows, k, RowReader(parseDayFirst));
      var record := ReadRow(rows[k], parseDayFirst);
      if record.Some? {
        records := records + [record.value];
      }
    }
    assert rows[..|rows|] == rows;
  }

  /** What `parse_hotel_pdf` returns: None without tabula, without tables or
      without a valid row, else the table of the records. */
  function PdfTable(tabulaAvailable: bool, tables: seq<seq<seq<string>>>, parseDayFirst: string -> Option<Date>): (r: Option<Frame>)
    ensures r.Some? <==> tabulaAvailable && tables != [] && Records(Concat(tables), parseDayFirst) != []
    ensures r.Some? ==>
      && WellFormed(r.value) && r.value.names == RecordColumns
      && r.value.height == |Records(Concat(tables), parseDayFirst)| > 0
  {
    if !tabulaAvailable || tables == [] then None
    else
      var recs := Records(Concat(tables), parseDayFirst);
      if recs == [] then None else Some(RecordsFrame(recs))
  }

  /** `parse_hotel_pdf`: the row loop collects one record per valid row.
      The six lists of `processed_data` are kept as one list of records,
      so they have equal length by construction. */
  method ParseHotelPdf(tabulaAvailable: bool, tables: seq<seq<seq<string>>>, parseDayFirst: string -> Option<Date>)
    returns (r: Option<Frame>)
    ensures r == PdfTable(tabulaAvailable, tables, parseDayFirst)
    ensures r.Some? ==> r.value == RecordsFrame(Records(Concat(tables), parseDayFirst))
  {
    if !tabulaAvailable || tables == [] {
      return None;
    }
    var records := ReadRecords(Concat(tables), parseDayFirst);
    if records == [] {
      return None;
    }
    return Some(RecordsFrame(records));
  }

  // ---------------------------------------------------------------------------
  // load_uploaded_file

  /** `pd.to_datetime` over the `date` column, then the rows without a date
      dropped: the date column keeps its converted dates, every other column
      the cells of those rows. */
  function DropUndated(df: Frame, parse: DateParser): (r: Frame)
    requires WellFormed(df) && "date" in df.columns
    ensures WellFormed(r) && r.names == df.names && r.columns.Keys == df.columns.Keys
    ensures var dates := ToDatetime(parse, df.columns["date"]);
      r.columns["date"] == Column(DateTime, Keep(dates.cells, DatePresent(dates.cells)))
    ensures forall i :: 0 <= i < |r.columns["date"].cells| ==> r.columns["date"].cells[i].When?
    ensures var dates := ToDatetime(parse, df.columns["date"]);
      forall n :: n in df.columns && n != "date" ==>
        r.columns[n] == Column(df.columns[n].kind, Keep(df.columns[n].cells, DatePresent(dates.cells)))
  {
    DroppedDateColumn(df, parse);
    DroppedOtherColumns(df, parse);
    DropMissingDates(SetColumn(df, "date", ToDatetime(parse, df.columns["date"])))
  }

  lemma {:induction false} DroppedDateColumn(df: Frame, parse: DateParser)
    requires WellFormed(df) && "date" in df.columns
    ensures var dates := ToDatetime(parse, df.columns["date"]);
      var r := DropMissingDates(SetColumn(df, "date", dates));
      && r.columns["date"] == Column(DateTime, Keep(dates.cells, DatePresent(dates.cells)))
      && forall i :: 0 <= i < |r.columns["date"].cells| ==> r.columns["date"].cells[i].When?
  {
    var dates := ToDatetime(parse, df.columns["date"]);
    KeptAreDates(dates.cells);
  }

  lemma {:induction false} DroppedOtherColumns(df: Frame, parse: DateParser)
    requires WellFormed(df) && "date" in df.columns
    ensures var dates := ToDatetime(parse, df.columns["date"]);
      var r := DropMissingDates(SetColumn(df, "date", dates));
      forall n :: n in df.columns && n != "date" ==>
        r.columns[n] == Column(df.columns[n].kind, Keep(df.columns[n].cells, DatePresent(dates.cells)))
  {
    var dates := ToDatetime(parse, df.columns["date"]);
    var converted := SetColumn(df, "date", dates);
    assert forall n :: n in df.columns && n != "date" ==> converted.columns[n] == df.columns[n];
  }

  /** The CSV branch: the `date` column, if any, through
      `pd.to_datetime(..., dayfirst=True, errors='coerce')`, then the rows
      without a date dropped. */
  function CsvTable(df: Frame, toDatetimeDayFirst: DateParser): (r: Frame)
    requires WellFormed(df)
    ensures WellFormed(r) && r.names == df.names && r.columns.Keys == df.columns.Keys
    ensures "date" !in df.columns ==> r == df
    ensures "date" in df.columns ==>
      var dates := ToDatetime(toDatetimeDayFirst, df.columns["date"]);
      r.columns["date"] == Column(DateTime, Keep(dates.cells, DatePresent(dates.cells)))
    ensures "date" in df.columns ==>
      forall i :: 0 <= i < |r.columns["date"].cells| ==> r.columns["date"].cells[i].When?
    ensures "date" in df.columns ==>
      var dates := ToDatetime(toDatetimeDayFirst, df.columns["date"]);
      forall n :: n in df.columns && n != "date" ==>
        r.columns[n] == Column(df.columns[n].kind, Keep(df.columns[n].cells, DatePresent(dates.cells)))
  {
    if "date" in df.columns then DropUndated(df, toDatetimeDayFirst) else df
  }

  /** `load_uploaded_file`: a `.csv` name reads a CSV (None where reading
      fails), a `.pdf` name parses the report, any other name gives None. */
  method LoadUploadedFile(
    name: string, csv: Option<Frame>, toDatetimeDayFirst: DateParser,
    tabulaAvailable: bool, tables: seq<seq<seq<string>>>, parseDayFirst: string -> Option<Date>)
    returns (r: Option<Frame>)
    requires csv.Some? ==> WellFormed(csv.value)
    ensures EndsWith(name, ".csv") ==>
      r == (if csv.Some? then Some(CsvTable(csv.value, toDatetimeDayFirst)) else None)
    ensures !EndsWith(name, ".csv") && EndsWith(name, ".pdf") ==>
      r == PdfTable(tabulaAvailable, tables, parseDayFirst)
    ensures !EndsWith(name, ".csv") && !EndsWith(name, ".pdf") ==> r.None?
  {
    if EndsWith(name, ".csv") {
      if csv.None? {
        return None;
      }
      return Some(CsvTable(csv.value, toDatetimeDayFirst));
    } else if EndsWith(name, ".pdf") {
      r := ParseHotelPdf(tabulaAvailable, tables, parseDayFirst);
    } else {
      return None;
    }
  }

  // ---------------------------------------------------------------------------
  // generate_predictions

  /** The history after `pd.to_datetime(df['date'], errors='coerce')` and,
      when a date did not convert, `dropna(subset=['date'])`. */
  function DatedRows(historical: Frame, toDatetime: DateParser): (r: Frame)
    requires WellFormed(historical) && "date" in historical.columns
    ensures WellFormed(r) && r.names == historical.names && r.columns.Keys == historical.columns.Keys
    ensures r.columns["date"] ==
      Column(DateTime, ValidDates(ToDatetime(toDatetime, historical.columns["date"]).cells))
    ensures var dates := ToDatetime(toDatetime, historical.columns["date"]);
      forall n :: n in historical.columns && n != "date" ==>
        r.columns[n] ==
          if AnyMissing(dates.cells)
          then Column(historical.columns[n].kind, Keep(historical.columns[n].cells, DatePresent(dates.cells)))
          else historical.columns[n]
  {
    var dates := ToDatetime(toDatetime, historical.columns["date"]);
    if AnyMissing(dates.cells) then DropUndated(historical, toDatetime)
    else SetColumn(historical, "date", dates)
  }

  /** The date cells that remain: all of them when none is missing, else
      the present ones. */
  function ValidDates(cells: seq<Cell>): (r: seq<Cell>)
    requires forall i :: 0 <= i < |cells| ==> cells[i].When? || cells[i].Missing?
    ensures forall i :: 0 <= i < |r| ==> r[i].When?
    ensures forall c :: c in r ==> c in cells
    ensures forall i :: 0 <= i < |cells| && cells[i].When? ==> cells[i] in r
  {
    if AnyMissing(cells) then
      KeptAreDates(cells);
      KeepMembers(cells, DatePresent(cells));
      Keep(cells, DatePresent(cells))
    else cells
  }

  lemma {:induction false} KeptAreDates(cells: seq<Cell>)
    requires forall i :: 0 <= i < |cells| ==> cells[i].When? || cells[i].Missing?
    ensures forall i :: 0 <= i < |Keep(cells, DatePresent(cells))| ==> Keep(cells, DatePresent(cells))[i].When?
  {
    var r := Keep(cells, DatePresent(cells));
    KeepPresent(cells);
    KeepMembers(cells, DatePresent(cells));
    forall i | 0 <= i < |r| ensures r[i].When? {
      assert r[i] in cells;
    }
  }

  /** What the predictor reads off the history: the last date and the mean
      price and occupancy (None for NaN). */
  datatype History = History(lastDate: Date, avgPrice: Option<real>, avgOccupancy: Option<real>)

  /** The straight-line part of `generate_predictions` up to the draws:
      None where it raises (a required column missing, no valid date, a
      mean over a non-numeric column). */
  function Summarize(historical: Frame, toDatetime: DateParser): (r: Option<History>)
    requires WellFormed(historical)
    ensures r.Some? ==> "date" in historical.columns && "price" in historical.columns && "occupancy_rate" in historical.columns
    ensures ("date" !in historical.columns || "price" !in historical.columns || "occupancy_rate" !in historical.columns) ==> r.None?
    ensures r.Some? ==> IsLatestParsed(historical.columns["date"].cells, toDatetime, r.value.lastDate)
    ensures "date" in historical.columns &&
      (forall i :: 0 <= i < |historical.columns["date"].cells| ==> toDatetime(historical.columns["date"].cells[i]).None?)
      ==> r.None?
    ensures r.Some? ==>
      var df := DatedRows(historical, toDatetime);
      && NumericValues(df.columns["price"].cells).Some?
      && NumericValues(df.columns["occupancy_rate"].cells).Some?
      && r.value.avgPrice == MeanSkipNa(NumericValues(df.columns["price"].cells).value)
      && r.value.avgOccupancy == MeanSkipNa(NumericValues(df.columns["occupancy_rate"].cells).value)
    ensures ("date" in historical.columns && "price" in historical.columns && "occupancy_rate" in historical.columns &&
      exists i :: 0 <= i < |historical.columns["date"].cells| && toDatetime(historical.columns["date"].cells[i]).Some?) ==>
      var df := DatedRows(historical, toDatetime);
      (r.None? <==>
        NumericValues(df.columns["price"].cells).None? || NumericValues(df.columns["occupancy_rate"].cells).None?)
  {
    if "date" !in historical.columns || "price" !in historical.columns || "occupancy_rate" !in historical.columns then None
    else
      match LastValidDate(historical, toDatetime)
      case None => None
      case Some(last) =>
        var df := DatedRows(historical, toDatetime);
        match NumericValues(df.columns["price"].cells)
        case None => None
        case Some(prices) =>
          match NumericValues(df.columns["occupancy_rate"].cells)
          case None => None
          case Some(occupancies) =>
            Some(History(last, MeanSkipNa(prices), MeanSkipNa(occupancies)))
  }

  /** `df['date'].max()` once the rows without a date are gone, read off
      the date column `DatedRows` leaves: None when no row is left. */
  function LastValidDate(historical: Frame, toDatetime: DateParser): (r: Option<Date>)
    requires WellFormed(historical) && "date" in historical.columns
    ensures r.Some? ==> IsLatestParsed(historical.columns["date"].cells, toDatetime, r.value)
    ensures r.None? <==>
      forall i :: 0 <= i < |historical.columns["date"].cells| ==> toDatetime(historical.columns["date"].cells[i]).None?
  {
    LatestDate(historical.columns["date"], toDatetime)
  }

  /** The latest date of a column once `to_datetime` has converted it and
      NaT is dropped: None when no cell converts. */
  function LatestDate(col: Column, toDatetime: DateParser): (r: Option<Date>)
    ensures r.Some? ==> IsLatestParsed(col.cells, toDatetime, r.value)
    ensures r.None? <==> forall i :: 0 <= i < |col.cells| ==> toDatetime(col.cells[i]).None?
  {
    var converted := ToDatetime(toDatetime, col);
    var dateCells := ValidDates(converted.cells);
    if dateCells == [] then
      NoValidDates(converted.cells);
      None
    else
      assert dateCells[0] in dateCells;
      match DateValues(dateCells)
      case None => None
      case Some(ds) =>
        assert dateCells[0].d in ds;
        var last := MaxDate(ds);
        LastDateIsMax(col, toDatetime, dateCells, ds, last);
        Some(last)
  }

  lemma {:induction false} NoValidDates(cells: seq<Cell>)
    requires forall i :: 0 <= i < |cells| ==> cells[i].When? || cells[i].Missing?
    requires ValidDates(cells) == []
    ensures forall i :: 0 <= i < |cells| ==> cells[i].Missing?
  {
    assert forall i :: 0 <= i < |cells| && cells[i].When? ==> cells[i] in ValidDates(cells);
  }

  /** The maximum of the remaining dates is the latest date that converts. */
  lemma {:induction false} LastDateIsMax(col: Column, toDatetime: DateParser, dateCells: seq<Cell>, ds: seq<Date>, last: Date)
    requires dateCells == ValidDates(ToDatetime(toDatetime, col).cells)
    requires forall d :: d in ds <==> When(d) in dateCells
    requires last in ds && forall i :: 0 <= i < |ds| ==> ds[i] <= last
    ensures IsLatestParsed(col.cells, toDatetime, last)
  {
    var cells := col.cells;
    var converted := ToDatetime(toDatetime, col);
    assert When(last) in converted.cells;
    var i :| 0 <= i < |converted.cells| && converted.cells[i] == When(last);
    assert toDatetime(cells[i]) == Some(last);
    forall j | 0 <= j < |cells| && toDatetime(cells[j]).Some? ensures toDatetime(cells[j]).value <= last {
      var d := toDatetime(cells[j]).value;
      assert converted.cells[j] == When(d);
      assert d in ds;
    }
  }

  /** One predicted price: `max(avg·0.5, min(draw, avg·2))`, with Python's
      max and min, which keep their first argument unless the second
      compares larger (smaller): a NaN draw (None) leaves `avg·0.5`, a NaN
      mean a NaN price. */
  function PredictedPrice(avg: Option<real>, draw: Option<real>): (p: Option<real>)
    ensures p.Some? <==> avg.Some?
    ensures p.Some? && avg.value >= 0.0 ==> avg.value * 0.5 <= p.value <= avg.value * 2.0
    ensures p.Some? && avg.value >= 0.0 && draw.Some? ==> p.value == Clip(draw.value, avg.value * 0.5, avg.value * 2.0)
    ensures p.Some? && (avg.value < 0.0 || draw.None?) ==> p.value == avg.value * 0.5
  {
    match avg
    case None => None
    case Some(a) =>
      match draw
      case None => Some(a * 0.5)
      case Some(x) =>
        var low := if a * 2.0 < x then a * 2.0 else x;
        Some(if low > a * 0.5 then low else a * 0.5)
  }

  /** One predicted occupancy: `max(0.05, min(0.99, draw))`; a NaN draw
      (a NaN mean or trend) gives 0.99. */
  function PredictedOccupancy(avgOccupancy: Option<real>, draw: Option<real>): (o: real)
    ensures 0.05 <= o <= 0.99
    ensures avgOccupancy.Some? && draw.Some? ==> o == Clip(draw.value, 0.05, 0.99)
    ensures avgOccupancy.None? || draw.None? ==> o == 0.99
  {
    if avgOccupancy.None? || draw.None? then 0.99
    else
      var x := draw.value;
      var high := if x < 0.99 then x else 0.99;
      if high > 0.05 then high else 0.05
  }

  /** Whether `np.random.normal` raises for the occupancy spread
      `min(0.1, avg_occupancy·0.3)`: it does when the spread is negative and
      a draw is taken at all. */
  predicate NegativeSpread(h: History, days: nat)
  {
    days > 0 && h.avgOccupancy.Some? && h.avgOccupancy.value < 0.0
  }

  /** `generate_predictions(historical, days)`: `days` rows dated from the
      day after the last date, each price and occupancy clamped from its
      draw.  The draws of `np.random.normal` are inputs (None for NaN). */
  method GeneratePredictions(
    historical: Frame, days: nat, toDatetime: DateParser,
    priceDraw: nat -> Option<real>, occupancyDraw: nat -> Option<real>)
    returns (r: Option<seq<ForecastRow>>)
    requires WellFormed(historical)
    ensures r.None? <==>
      Summarize(historical, toDatetime).None? || NegativeSpread(Summarize(historical, toDatetime).value, days)
    ensures r.Some? ==>
      var h := Summarize(historical, toDatetime).value;
      && |r.value| == days
      && forall i :: 0 <= i < days ==>
        && r.value[i].date == h.lastDate + 1 + i
        && r.value[i].price == PredictedPrice(h.avgPrice, priceDraw(i))
        && r.value[i].occupancyRate == Some(PredictedOccupancy(h.avgOccupancy, occupancyDraw(i)))
  {
    var summary := Summarize(historical, toDatetime);
    if summary.None? {
      return None;
    }
    var h := summary.value;
    if NegativeSpread(h, days) {
      return None;
    }
    var rows := Forecast(h, days, priceDraw, occupancyDraw);
    return Some(rows);
  }

  /** The loop of `generate_predictions`: one price and one occupancy per
      day, then the table with the future dates. */
  method Forecast(h: History, days: nat, priceDraw: nat -> Option<real>, occupancyDraw: nat -> Option<real>)
    returns (rows: seq<ForecastRow>)
    ensures |rows| == days
    ensures forall i :: 0 <= i < days ==>
      && rows[i].date == h.lastDate + 1 + i
      && rows[i].price == PredictedPrice(h.avgPrice, priceDraw(i))
      && rows[i].occupancyRate == Some(PredictedOccupancy(h.avgOccupancy, occupancyDraw(i)))
  {
    var pricePred: seq<Option<real>> := [];
    var occupancyPred: seq<real> := [];
    for i := 0 to days
      invariant |pricePred| == i && |occupancyPred| == i
      invariant forall j :: 0 <= j < i ==> pricePred[j] == PredictedPrice(h.avgPrice, priceDraw(j))
      invariant forall j :: 0 <= j < i ==> occupancyPred[j] == PredictedOccupancy(h.avgOccupancy, occupancyDraw(j))
    {
      pricePred := pricePred + [PredictedPrice(h.avgPrice, priceDraw(i))];
      occupancyPred := occupancyPred + [PredictedOccupancy(h.avgOccupancy, occupancyDraw(i))];
    }
    rows := seq(days, (i: int) requires 0 <= i < days =>
      ForecastRow(h.lastDate + 1 + i, pricePred[i], Some(occupancyPred[i])));
  }
}
