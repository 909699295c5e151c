/** The upload path of the top-level streamlit_app.py: the strict numeric
    cleaning, the PDF report reader with its `dd.mm.yy` dates, stripped cells
    and date-sorted result, the suffix dispatch that returns a CSV as read,
    and the unclamped 30-day predictor.  The PDF extraction itself (tabula)
    and the random draws are inputs. */
module UploadRoot {
  import opened Common
  import opened Calendar
  import opened Frames
  import opened RowText
  import opened Sorting

  // ---------------------------------------------------------------------------
  // clean_numeric_series

  /** One cell of `series.astype(str).str.replace(',', '.').astype(float)`:
      a number's text reads back as the number, a missing cell's `'nan'` as
      NaN, a text with ',' read as '.', and anything else raises. */
  function FloatCell(c: Cell): (r: Result<Cell>)
    ensures c.Num? || c.Missing? ==> r == Success(c)
    ensures c.Text? ==> (r.Success? <==> FloatOf(c.s).Some?)
    ensures c.Text? && r.Success? ==> r.value == Num(FloatOf(c.s).value)
    ensures c.When? ==> r.Failure?
    ensures r.Success? ==> r.value.Num? || r.value.Missing?
  {
    match c
    case Num(_) => Success(c)
    case Missing => Success(c)
    case Text(s) =>
      (match FloatOf(s)
       case Some(x) => Success(Num(x))
       case None => Failure(NotANumber(s)))
    case When(_) => Failure(TypeError)
  }

  /** The cells converted one by one; the first cell that does not read
      makes the whole conversion raise. */
  function CleanCells(cells: seq<Cell>): (r: Result<seq<Cell>>)
    ensures r.Success? <==> forall i :: 0 <= i < |cells| ==> FloatCell(cells[i]).Success?
    ensures r.Success? ==> |r.value| == |cells|
    ensures r.Success? ==> forall i :: 0 <= i < |cells| ==> r.value[i] == FloatCell(cells[i]).value
  {
    if cells == [] then Success([])
    else
      var init, last := cells[..|cells| - 1], cells[|cells| - 1];
      assert cells == init + [last];
      match CleanCells(init)
      case Failure(e) => Failure(e)
      case Success(vs) =>
        match FloatCell(last)
        case Failure(e) => Failure(e)
        case Success(v) => Success(vs + [v])
  }

  /** `clean_numeric_series`: a float column of the converted cells, or the
      error `astype(float)` raises. */
  function CleanNumericSeries(col: Column): (r: Result<Column>)
    ensures r.Success? <==> forall i :: 0 <= i < |col.cells| ==> FloatCell(col.cells[i]).Success?
    ensures r.Success? ==> r.value.kind == Numeric && ColumnTyped(r.value) && |r.value.cells| == |col.cells|
    ensures r.Success? ==> forall i :: 0 <= i < |col.cells| ==> r.value.cells[i] == FloatCell(col.cells[i]).value
  {
    match CleanCells(col.cells)
    case Failure(e) => Failure(e)
    case Success(cells) => Success(Column(Numeric, cells))
  }

  /** A float column cleans to itself. */
  lemma {:induction false} CleanKeepsNumbers(col: Column)
    requires col.kind == Numeric && ColumnTyped(col)
    ensures CleanNumericSeries(col) == Success(col)
  {
    assert forall i :: 0 <= i < |col.cells| ==> CellFits(Numeric, col.cells[i]);
    var r := CleanNumericSeries(col);
    assert r.value.cells == col.cells;
  }

  // ---------------------------------------------------------------------------
  // The row loop of parse_hotel_pdf

  /** `df.apply(lambda x: x.str.strip())` on one row of texts. */
  function StripCells(cells: seq<string>): (r: seq<string>)
    ensures |r| == |cells| && forall k :: 0 <= k < |cells| ==> r[k] == Strip(cells[k])
  {
    seq(|cells|, (k: int) requires 0 <= k < |cells| => Strip(cells[k]))
  }

  /** One iteration of the row loop: the record a row adds, or None where
      the row is skipped (blank, no `dd.mm.yy`, a date strptime rejects, or
      fewer than 12 numbers). */
  function RowRecord(cells: seq<string>): Option<HotelRecord>
  {
    var text := JoinCells(StripCells(cells));
    if IsBlank(text) then None
    else
      match FindDate(text, 0)
      case None => None
      case Some(a) =>
        match ShortDate(text, a)
        case None => None
        case Some(date) =>
          match Numbers(text)
          case None => None
          case Some(numbers) =>
            if |numbers| >= 12 then Some(RecordOf(date, numbers)) else None
  }

  /** A row yields a record exactly when its stripped and joined text is not
      blank, holds a `dd.mm.yy` that is a calendar date, and has at least 12
      number tokens; the record takes the first such date and the 7th, 8th,
      9th (as a fraction), 11th and 12th token values. */
  lemma {:induction false} RowRecordSpec(cells: seq<string>)
    ensures RowRecord(cells).Some? <==>
      var text := JoinCells(StripCells(cells));
      && !IsBlank(text) && FindDate(text, 0).Some?
      && ShortDate(text, FindDate(text, 0).value).Some? && |Tokens(text)| >= 12
    ensures RowRecord(cells).Some? ==>
      var r := RowRecord(cells).value;
      var text := JoinCells(StripCells(cells));
      var tokens := Tokens(text);
      && |tokens| >= 12 && (forall k :: 0 <= k < |tokens| ==> IsNumberToken(tokens[k]))
      && r.date == ShortDate(text, FindDate(text, 0).value).value
      && r.roomsOccupied == TokenValue(tokens[6])
      && r.roomsTotal == TokenValue(tokens[7])
      && r.occupancyRate == TokenValue(tokens[8]) / 100.0
      && r.price == TokenValue(tokens[10])
      && r.revenue == TokenValue(tokens[11])
  {
    NumbersAreTokenValues(JoinCells(StripCells(cells)));
  }

  /** `%y` reads two digits, so the pattern stops after them: a four-digit
      year such as `05.03.2024` is read as 5 March 2020. */
  lemma {:induction false} FourDigitYearReadsShort()
    ensures FindDate("05.03.2024", 0) == Some(0)
    ensures ShortDate("05.03.2024", 0) == Some(DaysFromCivil(Civil(2020, 3, 5)))
  {
    var t := "05.03.2024";
    assert DateAt(t, 0);
    assert TwoDigits(t[0], t[1]) == 5 && TwoDigits(t[3], t[4]) == 3 && TwoDigits(t[6], t[7]) == 20;
    assert DaysInMonth(2020, 3) == 31;
  }

  function RowReader(): seq<string> -> Option<HotelRecord>
  {
    cells => RowRecord(cells)
  }

  function Records(rows: seq<seq<string>>): seq<HotelRecord>
  {
    RecordsOf(rows, RowReader())
  }

  /** The body of the row loop, with its early `continue`s. */
  method ReadRow(row: seq<string>) returns (record: Option<HotelRecord>)
    ensures record == RowRecord(row)
  {
    var text := JoinCells(StripCells(row));
    if IsBlank(text) {
      return None;
    }
    var at := FindDate(text, 0);
    if at.None? {
      return None;
    }
    var date := ShortDate(text, at.value);
    if date.None? {
      return None;
    }
    var numbers := Numbers(text);
    if numbers.None? {
      return None;
    }
    if |numbers.value| < 12 {
      return None;
    }
    return Some(RecordOf(date.value, numbers.value));
  }

  /** The row loop of `parse_hotel_pdf`: one record per valid row, in row
      order. */
  method ReadRecords(rows: seq<seq<string>>) returns (records: seq<HotelRecord>)
    ensures records == Records(rows)
  {
    records := [];
    for k := 0 to |rows|
      invariant records == Records(rows[..k])
    {
      RecordsOfStep(rows, k, RowReader());
      var record := ReadRow(rows[k]);
      if record.Some? {
        records := records + [record.value];
      }
    }
    assert rows[..|rows|] == rows;
  }

  // ---------------------------------------------------------------------------
  // The table parse_hotel_pdf returns

  /** `sort_values('date')` on the rows of the table: the records in date
      order, none lost and none added. */
  function SortedRecords(recs: seq<HotelRecord>): (s: seq<HotelRecord>)
    ensures SortedBy(s, RecordDate)
    ensures multiset(s) == multiset(recs) && |s| == |recs|
  {
    SortByFacts(recs, RecordDate);
    SortBy(recs, RecordDate)
  }

  /** What `parse_hotel_pdf` returns: None without tabula, without tables or
      without a valid row, else the table of the records sorted by date. */
  function PdfTable(tabulaAvailable: bool, tables: seq<seq<seq<string>>>): (r: Option<Frame>)
    ensures r.Some? <==> tabulaAvailable && tables != [] && Records(Concat(tables)) != []
    ensures r.Some? ==> r.value == SortedTable(Records(Concat(tables)))
  {
    if !tabulaAvailable || tables == [] then None
    else
      var recs := Records(Concat(tables));
      if recs == [] then None else Some(SortedTable(recs))
  }

  /** The table of the records after `sort_values('date')`: the six columns,
      one row per record, and the dates in order. */
  function SortedTable(recs: seq<HotelRecord>): (f: Frame)
    ensures WellFormed(f) && f.names == RecordColumns && f.height == |recs|
    ensures "date" in f.columns
    ensures forall i :: 0 <= i < f.height ==> f.columns["date"].cells[i].When?
    ensures forall i, j :: 0 <= i < j < f.height ==> f.columns["date"].cells[i].d <= f.columns["date"].cells[j].d
  {
    var s := SortedRecords(recs);
    SortedDates(s);
    RecordsFrame(s)
  }

  /** The date column of a date-sorted table is in date order. */
  lemma {:induction false} SortedDates(s: seq<HotelRecord>)
    requires SortedBy(s, RecordDate)
    ensures var dates := RecordsFrame(s).columns["date"].cells;
      && (forall i :: 0 <= i < |dates| ==> dates[i] == When(s[i].date))
      && (forall i, j :: 0 <= i < j < |dates| ==> dates[i].d <= dates[j].d)
  {
    var dates := RecordsFrame(s).columns["date"].cells;
    assert RecordsFrame(s).columns["date"] == DateColumn(s);
    forall i, j | 0 <= i < j < |dates| ensures dates[i].d <= dates[j].d {
      assert RecordDate(s[i]) <= RecordDate(s[j]);
    }
  }

  /** The columns `clean_numeric_series` goes over: all but `date`. */
  const NumericColumns: seq<string> := RecordColumns[1..]

  /** The clean loop of `parse_hotel_pdf`: `astype(float)` on each numeric
      column of the records' table leaves it as it is. */
  method CleanNumericColumns(records: seq<HotelRecord>) returns (frame: Frame)
    ensures frame == RecordsFrame(records)
  {
    frame := RecordsFrame(records);
    for k := 0 to |NumericColumns|
      invariant frame == RecordsFrame(records)
    {
      var name := NumericColumns[k];
      assert name == RecordColumns[k + 1] && name != RecordColumns[0];
      CleanKeepsNumbers(frame.columns[name]);
      var cleaned := CleanNumericSeries(frame.columns[name]);
      assert frame.columns[name := cleaned.value] == frame.columns;
      frame := SetColumn(frame, name, cleaned.value);
    }
  }

  /** `parse_hotel_pdf`: the row loop collects one record per valid row, the
      five numeric columns are cleaned (each is a float column already, so
      the cleaning neither raises nor changes it), and the rows are sorted
      by date.  The six lists of `processed_data` are kept as one list of
      records. */
  method ParseHotelPdf(tabulaAvailable: bool, tables: seq<seq<seq<string>>>) returns (r: Option<Frame>)
    ensures r == PdfTable(tabulaAvailable, tables)
  {
    if !tabulaAvailable || tables == [] {
      return None;
    }
    var records := ReadRecords(Concat(tables));
    if records == [] {
      return None;
    }
    var cleaned := CleanNumericColumns(records);
    // `cleaned` is the table of `records`, so sorting its rows by date
    // gives the table of the date-sorted records.
    assert cleaned == RecordsFrame(records);
    return Some(SortedTable(records));
  }

  // ---------------------------------------------------------------------------
  // load_uploaded_file

  /** What `load_uploaded_file` returns: a `.csv` name gives the CSV as
      `read_csv` returns it (None where reading fails), a `.pdf` name the
      parsed report, any other name None. */
  function UploadedTable(name: string, csv: Option<Frame>, tabulaAvailable: bool, tables: seq<seq<seq<string>>>): (r: Option<Frame>)
    ensures EndsWith(name, ".csv") ==> r == csv
    ensures !EndsWith(name, ".csv") && EndsWith(name, ".pdf") ==> r == PdfTable(tabulaAvailable, tables)
    ensures !EndsWith(name, ".csv") && !EndsWith(name, ".pdf") ==> r.None?
  {
    if EndsWith(name, ".csv") then csv
    else if EndsWith(name, ".pdf") then PdfTable(tabulaAvailable, tables)
    else None
  }

  method LoadUploadedFile(name: string, csv: Option<Frame>, tabulaAvailable: bool, tables: seq<seq<seq<string>>>)
    returns (r: Option<Frame>)
    ensures r == UploadedTable(name, csv, tabulaAvailable, tables)
  {
    if EndsWith(name, ".csv") {
      return csv;
    } else if EndsWith(name, ".pdf") {
      r := ParseHotelPdf(tabulaAvailable, tables);
    } else {
      return None;
    }
  }

  // ---------------------------------------------------------------------------
  // generate_predictions

  /** `historical['date'].max()` as far as `+ timedelta` accepts it: the
      latest date; a text or number cell makes the addition raise a
      TypeError, and a column without a date gives no date at all. */
  function LastDate(cells: seq<Cell>): (r: Result<Date>)
    ensures DateValues(cells).None? ==> r == Failure(TypeError)
    ensures DateValues(cells) == Some([]) ==> r == Failure(EmptyInput)
    ensures r.Success? <==> DateValues(cells).Some? && DateValues(cells).value != []
    ensures r.Success? ==> When(r.value) in cells
    ensures r.Success? ==> forall i :: 0 <= i < |cells| && cells[i].When? ==> cells[i].d <= r.value
  {
    match DateValues(cells)
    case None => Failure(TypeError)
    case Some(ds) =>
      if ds == [] then Failure(EmptyInput)
      else
        var m := MaxDate(ds);
        MaxDateBoundsCells(cells, ds, m);
        Success(m)
  }

  lemma {:induction false} MaxDateBoundsCells(cells: seq<Cell>, ds: seq<Date>, m: Date)
    requires forall d :: d in ds <==> When(d) in cells
    requires m in ds && forall i :: 0 <= i < |ds| ==> ds[i] <= m
    ensures When(m) in cells
    ensures forall i :: 0 <= i < |cells| && cells[i].When? ==> cells[i].d <= m
  {
    forall i | 0 <= i < |cells| && cells[i].When? ensures cells[i].d <= m {
      assert When(cells[i].d) == cells[i];
      assert cells[i].d in ds;
    }
  }

  /** `historical[name].mean()`: a KeyError for a missing column, a
      TypeError over a text or date cell, NaN (None) over no number. */
  function ColumnMean(f: Frame, name: string): (r: Result<Option<real>>)
    ensures name !in f.columns ==> r == Failure(MissingColumn(name))
    ensures name in f.columns ==> (r.Failure? <==> NumericValues(f.columns[name].cells).None?)
    ensures name in f.columns && r.Failure? ==> r.error == TypeError
    ensures r.Success? ==> name in f.columns && r.value == MeanSkipNa(NumericValues(f.columns[name].cells).value)
  {
    if name !in f.columns then Failure(MissingColumn(name))
    else
      match NumericValues(f.columns[name].cells)
      case None => Failure(TypeError)
      case Some(vs) => Success(MeanSkipNa(vs))
  }

  /** One price: the mean times its draw, unclamped; NaN when the mean is. */
  function ScaledPrice(avg: Option<real>, draw: real): (p: Option<real>)
    ensures p.Some? <==> avg.Some?
    ensures p.Some? && avg.value >= 0.0 && draw >= 0.0 ==> p.value >= 0.0
    ensures p.Some? && avg.value > 0.0 && draw > 2.0 ==> p.value > avg.value * 2.0
  {
    match avg
    case None => None
    case Some(a) =>
      assert a > 0.0 && draw > 2.0 ==> a * draw - a * 2.0 == a * (draw - 2.0) > 0.0;
      Some(a * draw)
  }

  /** One occupancy: `np.clip(mean·draw, 0, 1)`, NaN when the mean is. */
  function ClippedOccupancy(avg: Option<real>, draw: real): (o: Option<real>)
    ensures o.Some? <==> avg.Some?
    ensures o.Some? ==> 0.0 <= o.value <= 1.0
    ensures o.Some? && 0.0 <= avg.value * draw <= 1.0 ==> o.value == avg.value * draw
  {
    match avg
    case None => None
    case Some(a) => Some(Clip(a * draw, 0.0, 1.0))
  }

  /** Whether `max()` over a column returns rather than raises.  Over
      numbers NaN is skipped, and a datetime column skips NaT.  Over any
      other column (object dtype) pandas puts -inf in place of each missing
      cell before comparing, so texts or dates go through only when no cell
      is missing, and then only when they are all texts or all dates; a
      text compared with a number or a date raises a TypeError. */
  predicate MaxComparable(col: Column)
  {
    || (forall i :: 0 <= i < |col.cells| ==> col.cells[i].Num? || col.cells[i].Missing?)
    || (col.kind == DateTime && forall i :: 0 <= i < |col.cells| ==> col.cells[i].When? || col.cells[i].Missing?)
    || (forall i :: 0 <= i < |col.cells| ==> col.cells[i].Text?)
    || (forall i :: 0 <= i < |col.cells| ==> col.cells[i].When?)
  }

  /** `generate_predictions(historical, days)`: `days` rows dated from the
      day after the last date, each price the mean price times its draw and
      each occupancy the mean occupancy times its draw, clipped to [0, 1].
      `max()` runs first and may raise; the `timedelta` is then added to the
      last date once per forecast day, so with no day to forecast it cannot
      raise; the two means come last.  The draws of `np.random.normal` are
      inputs. */
  function GeneratePredictions(historical: Frame, days: nat, priceDraw: nat -> real, occupancyDraw: nat -> real)
    : (r: Result<seq<ForecastRow>>)
    ensures "date" !in historical.columns ==> r == Failure(MissingColumn("date"))
    ensures "date" in historical.columns && !MaxComparable(historical.columns["date"]) ==>
      r == Failure(TypeError)
    ensures ("date" in historical.columns && MaxComparable(historical.columns["date"]) &&
      days > 0 && LastDate(historical.columns["date"].cells).Failure?) ==>
      r == Failure(LastDate(historical.columns["date"].cells).error)
    ensures ("date" in historical.columns && MaxComparable(historical.columns["date"]) &&
      (days > 0 ==> LastDate(historical.columns["date"].cells).Success?) &&
      ColumnMean(historical, "price").Failure?) ==>
      r == Failure(ColumnMean(historical, "price").error)
    ensures r.Success? <==>
      && "date" in historical.columns
      && MaxComparable(historical.columns["date"])
      && (days > 0 ==> LastDate(historical.columns["date"].cells).Success?)
      && ColumnMean(historical, "price").Success? && ColumnMean(historical, "occupancy_rate").Success?
    ensures r.Success? ==> |r.value| == days
    ensures r.Success? && days > 0 ==>
      var last := LastDate(historical.columns["date"].cells).value;
      var avgPrice := ColumnMean(historical, "price").value;
      var avgOccupancy := ColumnMean(historical, "occupancy_rate").value;
      forall i :: 0 <= i < days ==>
        && r.value[i].date == last + 1 + i
        && r.value[i].price == ScaledPrice(avgPrice, priceDraw(i))
        && r.value[i].occupancyRate == ClippedOccupancy(avgOccupancy, occupancyDraw(i))
  {
    if "date" !in historical.columns then Failure(MissingColumn("date"))
    else if !MaxComparable(historical.columns["date"]) then Failure(TypeError)
    else if days == 0 then
      match ColumnMean(historical, "price")
      case Failure(e) => Failure(e)
      case Success(_) =>
        match ColumnMean(historical, "occupancy_rate")
        case Failure(e) => Failure(e)
        case Success(_) => Success([])
    else
      match LastDate(historical.columns["date"].cells)
      case Failure(e) => Failure(e)
      case Success(last) =>
        match ColumnMean(historical, "price")
        case Failure(e) => Failure(e)
        case Success(avgPrice) =>
          match ColumnMean(historical, "occupancy_rate")
          case Failure(e) => Failure(e)
          case Success(avgOccupancy) =>
            Success(seq(days, (i: int) requires 0 <= i < days =>
              ForecastRow(last + 1 + i, ScaledPrice(avgPrice, priceDraw(i)), ClippedOccupancy(avgOccupancy, occupancyDraw(i)))))
  }

  /** A `.csv` upload is returned with its dates as `read_csv` leaves them,
      as texts, and a text date makes the predictor raise a TypeError as
      soon as there is a day to forecast, or when a date is missing.  With
      no day to forecast, a date column of texts only raises nothing. */
  lemma {:induction false} CsvTextDatesRaise(
    name: string, csv: Option<Frame>, tabulaAvailable: bool, tables: seq<seq<seq<string>>>,
    days: nat, priceDraw: nat -> real, occupancyDraw: nat -> real, i: nat)
    requires EndsWith(name, ".csv") && csv.Some? && "date" in csv.value.columns
    requires i < |csv.value.columns["date"].cells| && csv.value.columns["date"].cells[i].Text?
    ensures UploadedTable(name, csv, tabulaAvailable, tables) == csv
    ensures days > 0 ==> GeneratePredictions(csv.value, days, priceDraw, occupancyDraw) == Failure(TypeError)
    ensures (exists j :: 0 <= j < |csv.value.columns["date"].cells| && csv.value.columns["date"].cells[j].Missing?) ==>
      GeneratePredictions(csv.value, days, priceDraw, occupancyDraw) == Failure(TypeError)
    ensures days == 0 && (forall j :: 0 <= j < |csv.value.columns["date"].cells| ==> csv.value.columns["date"].cells[j].Text?) ==>
      (GeneratePredictions(csv.value, days, priceDraw, occupancyDraw) == Success([]) <==>
         ColumnMean(csv.value, "price").Success? && ColumnMean(csv.value, "occupancy_rate").Success?)
  {
    assert DateValues(csv.value.columns["date"].cells).None?;
  }

  /** The predictor with the date column first read by
      `pd.to_datetime(..., errors='coerce')`, as the other app does: text
      dates no longer raise, and the forecast starts the day after the
      latest date that reads. */
  function GeneratePredictionsParsingDates(
    historical: Frame, toDatetime: DateParser, days: nat, priceDraw: nat -> real, occupancyDraw: nat -> real)
    : (r: Result<seq<ForecastRow>>)
    requires WellFormed(historical)
    ensures r.Success? <==>
      && "date" in historical.columns
      && (days > 0 ==> exists i :: 0 <= i < |historical.columns["date"].cells| && toDatetime(historical.columns["date"].cells[i]).Some?)
      && ColumnMean(historical, "price").Success? && ColumnMean(historical, "occupancy_rate").Success?
    ensures r.Success? ==> |r.value| == days
    ensures r.Success? && days > 0 ==>
      var last := LastDate(ToDatetime(toDatetime, historical.columns["date"]).cells);
      && last.Success? && IsLatestParsed(historical.columns["date"].cells, toDatetime, last.value)
      && forall i :: 0 <= i < days ==> r.value[i].date == last.value + 1 + i
  {
    if "date" !in historical.columns then Failure(MissingColumn("date"))
    else
      ParsedPredictionsSucceed(historical, toDatetime, days, priceDraw, occupancyDraw);
      ParsedPredictionsDates(historical, toDatetime, days, priceDraw, occupancyDraw);
      GeneratePredictions(WithParsedDates(historical, toDatetime), days, priceDraw, occupancyDraw)
  }

  /** `historical['date'] = pd.to_datetime(historical['date'], errors='coerce')`. */
  function WithParsedDates(historical: Frame, toDatetime: DateParser): (r: Frame)
    requires WellFormed(historical) && "date" in historical.columns
    ensures r.columns == historical.columns["date" := ToDatetime(toDatetime, historical.columns["date"])]
  {
    SetColumn(historical, "date", ToDatetime(toDatetime, historical.columns["date"]))
  }

  /** With the dates converted, the predictor succeeds exactly when both
      means exist and, if there is a day to forecast, a date converts. */
  lemma {:induction false} ParsedPredictionsSucceed(
    historical: Frame, toDatetime: DateParser, days: nat, priceDraw: nat -> real, occupancyDraw: nat -> real)
    requires WellFormed(historical) && "date" in historical.columns
    ensures GeneratePredictions(WithParsedDates(historical, toDatetime), days, priceDraw, occupancyDraw).Success? <==>
      && (days > 0 ==> exists i :: 0 <= i < |historical.columns["date"].cells| && toDatetime(historical.columns["date"].cells[i]).Some?)
      && ColumnMean(historical, "price").Success? && ColumnMean(historical, "occupancy_rate").Success?
  {
    var dated := WithParsedDates(historical, toDatetime);
    ParsedLastDate(historical.columns["date"], toDatetime);
    assert MaxComparable(dated.columns["date"]);
    assert ColumnMean(dated, "price") == ColumnMean(historical, "price");
    assert ColumnMean(dated, "occupancy_rate") == ColumnMean(historical, "occupancy_rate");
  }

  /** With the dates converted, the forecast runs from the day after the
      latest date that converts. */
  lemma {:induction false} ParsedPredictionsDates(
    historical: Frame, toDatetime: DateParser, days: nat, priceDraw: nat -> real, occupancyDraw: nat -> real)
    requires WellFormed(historical) && "date" in historical.columns
    ensures var r := GeneratePredictions(WithParsedDates(historical, toDatetime), days, priceDraw, occupancyDraw);
      var cells := historical.columns["date"].cells;
      var last := LastDate(ToDatetime(toDatetime, historical.columns["date"]).cells);
      r.Success? && days > 0 ==>
        && last.Success? && IsLatestParsed(cells, toDatetime, last.value)
        && forall i :: 0 <= i < days ==> r.value[i].date == last.value + 1 + i
  {
    var dated := WithParsedDates(historical, toDatetime);
    var r := GeneratePredictions(dated, days, priceDraw, occupancyDraw);
    if r.Success? && days > 0 {
      var col := historical.columns["date"];
      var cells := col.cells;
      assert dated.columns["date"] == ToDatetime(toDatetime, col);
      var last := LastDate(dated.columns["date"].cells).value;
      ParsedLastDateLatest(col, toDatetime);
      assert IsLatestParsed(cells, toDatetime, last);
      assert forall i :: 0 <= i < days ==> r.value[i].date == last + 1 + i;
    }
  }

  /** After `to_datetime`, the column always has a last date when one cell
      reads, and it is the latest date that reads. */
  lemma {:induction false} ParsedLastDate(col: Column, toDatetime: DateParser)
    ensures var cells := ToDatetime(toDatetime, col).cells;
      LastDate(cells).Success? <==> exists i :: 0 <= i < |col.cells| && toDatetime(col.cells[i]).Some?
    ensures var cells := ToDatetime(toDatetime, col).cells;
      LastDate(cells).Success? ==> IsLatestParsed(col.cells, toDatetime, LastDate(cells).value)
  {
    ParsedLastDateExists(col, toDatetime);
    ParsedLastDateLatest(col, toDatetime);
  }

  lemma {:induction false} ParsedLastDateExists(col: Column, toDatetime: DateParser)
    ensures var cells := ToDatetime(toDatetime, col).cells;
      LastDate(cells).Success? <==> exists i :: 0 <= i < |col.cells| && toDatetime(col.cells[i]).Some?
  {
    var cells := ToDatetime(toDatetime, col).cells;
    assert forall i :: 0 <= i < |cells| ==> cells[i].When? || cells[i].Missing?;
    if exists i :: 0 <= i < |col.cells| && toDatetime(col.cells[i]).Some? {
      var i :| 0 <= i < |col.cells| && toDatetime(col.cells[i]).Some?;
      assert cells[i] == When(toDatetime(col.cells[i]).value);
      assert cells[i].d in DateValues(cells).value;
    }
    if LastDate(cells).Success? {
      var j :| 0 <= j < |cells| && cells[j] == When(LastDate(cells).value);
      assert toDatetime(col.cells[j]).Some?;
    }
  }

  lemma {:induction false} ParsedLastDateLatest(col: Column, toDatetime: DateParser)
    ensures var cells := ToDatetime(toDatetime, col).cells;
      LastDate(cells).Success? ==> IsLatestParsed(col.cells, toDatetime, LastDate(cells).value)
  {
    var cells := ToDatetime(toDatetime, col).cells;
    if LastDate(cells).Success? {
      var last := LastDate(cells).value;
      var j :| 0 <= j < |cells| && cells[j] == When(last);
      assert toDatetime(col.cells[j]) == Some(last);
      forall k | 0 <= k < |col.cells| && toDatetime(col.cells[k]).Some?
        ensures toDatetime(col.cells[k]).value <= last
      {
        assert cells[k].When?;
      }
    }
  }
}
