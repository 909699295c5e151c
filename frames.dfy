/** The slice of pandas the upload and summary code relies on: a frame is a
    sequence of named columns of equal height, a cell is a number, a text, a
    date or missing (NaN/NaT), and a column has the dtype pandas would give it.
    Aggregates skip missing cells and fail on text, as pandas' mean does. */
module Frames {
  import opened Common
  import opened Calendar

  datatype Cell = Num(x: real) | Text(s: string) | When(d: Date) | Missing

  /** numpy number, object, or datetime64 dtype. */
  datatype Kind = Numeric | Object | DateTime

  datatype Column = Column(kind: Kind, cells: seq<Cell>)

  predicate CellFits(k: Kind, c: Cell)
  {
    match k
    case Numeric => c.Num? || c.Missing?
    case DateTime => c.When? || c.Missing?
    case Object => true
  }

  predicate ColumnTyped(col: Column)
  {
    forall i :: 0 <= i < |col.cells| ==> CellFits(col.kind, col.cells[i])
  }

  /** Column names in order, the columns by name, and the common height. */
  datatype Frame = Frame(names: seq<string>, columns: map<string, Column>, height: nat)

  ghost predicate WellFormed(f: Frame)
  {
    && (forall i, j :: 0 <= i < j < |f.names| ==> f.names[i] != f.names[j])
    && (forall n :: n in f.columns <==> n in f.names)
    && (forall n :: n in f.columns ==> |f.columns[n].cells| == f.height && ColumnTyped(f.columns[n]))
  }

  // ---------------------------------------------------------------------------
  // Aggregates

  /** The numbers of a column, with missing cells skipped; None when a cell is
      text or a date, where pandas' numeric aggregation raises. */
  function NumericValues(cells: seq<Cell>): (r: Option<seq<real>>)
    ensures r.Some? <==> forall i :: 0 <= i < |cells| ==> cells[i].Num? || cells[i].Missing?
    ensures r.Some? ==> forall x :: x in r.value <==> Num(x) in cells
  {
    if cells == [] then Some([])
    else
      var init, last := cells[..|cells| - 1], cells[|cells| - 1];
      assert cells == init + [last];
      match NumericValues(init)
      case None => None
      case Some(vs) =>
        match last
        case Num(x) => Some(vs + [x])
        case Missing => Some(vs)
        case _ => None
  }

  /** A numeric column gives the numbers of its present cells. */
  lemma {:induction false} NumericColumnValues(col: Column)
    requires col.kind == Numeric && ColumnTyped(col)
    ensures NumericValues(col.cells).Some?
  {
  }

  /** `Series.mean()`: NaN (None) when no value is present. */
  function MeanSkipNa(vs: seq<real>): (m: Option<real>)
    ensures m.Some? <==> |vs| > 0
    ensures m.Some? ==> MinOf(vs) <= m.value <= MaxOf(vs)
  {
    if |vs| > 0 then MeanBetweenMinAndMax(vs); Some(Mean(vs)) else None
  }

  function MaxSkipNa(vs: seq<real>): (m: Option<real>)
    ensures m.Some? <==> |vs| > 0
    ensures m.Some? ==> m.value in vs && forall i :: 0 <= i < |vs| ==> vs[i] <= m.value
  {
    if |vs| > 0 then Some(MaxOf(vs)) else None
  }

  function MinSkipNa(vs: seq<real>): (m: Option<real>)
    ensures m.Some? <==> |vs| > 0
    ensures m.Some? ==> m.value in vs && forall i :: 0 <= i < |vs| ==> m.value <= vs[i]
  {
    if |vs| > 0 then Some(MinOf(vs)) else None
  }

  // ---------------------------------------------------------------------------
  // Dates

  /** One cell through `pd.to_datetime(..., errors='coerce')`: a date stays, a
      missing cell stays missing; how texts and numbers read is the parser's. */
  type DateParser = parse: Cell -> Option<Date>
    | (forall d :: parse(When(d)) == Some(d)) && parse(Missing) == None
    witness (c: Cell) => if c.When? then Some(c.d) else None

  /** `pd.to_datetime(column, errors='coerce')`: a datetime column, unparseable cells NaT. */
  function ToDatetime(parse: DateParser, col: Column): (r: Column)
    ensures r.kind == DateTime && ColumnTyped(r) && |r.cells| == |col.cells|
    ensures forall i :: 0 <= i < |col.cells| ==>
      r.cells[i] == (if parse(col.cells[i]).Some? then When(parse(col.cells[i]).value) else Missing)
  {
    Column(DateTime, seq(|col.cells|, (i: int) requires 0 <= i < |col.cells| =>
      match parse(col.cells[i])
      case Some(d) => When(d)
      case None => Missing))
  }

  /** A datetime column goes through to_datetime unchanged. */
  lemma {:induction false} ToDatetimeKeepsDates(parse: DateParser, col: Column)
    requires col.kind == DateTime && ColumnTyped(col)
    ensures ToDatetime(parse, col) == col
  {
    var r := ToDatetime(parse, col);
    forall i | 0 <= i < |col.cells| ensures r.cells[i] == col.cells[i] {
      match col.cells[i]
      case When(d) => assert parse(When(d)) == Some(d);
      case Missing => assert parse(Missing) == None;
    }
  }

  function DateKey(c: Cell): int
  {
    if c.When? then c.d else 0
  }

  /** `last` is a date some cell converts to, and no cell converts to a
      later one: the latest date a column yields through `to_datetime`. */
  predicate IsLatestParsed(cells: seq<Cell>, toDatetime: DateParser, last: Date)
  {
    && (exists j :: 0 <= j < |cells| && toDatetime(cells[j]) == Some(last))
    && (forall j :: 0 <= j < |cells| && toDatetime(cells[j]).Some? ==> toDatetime(cells[j]).value <= last)
  }

  /** The dates of a column, missing cells skipped; None when a cell is not a date. */
  function DateValues(cells: seq<Cell>): (r: Option<seq<Date>>)
    ensures r.Some? <==> forall i :: 0 <= i < |cells| ==> cells[i].When? || cells[i].Missing?
    ensures r.Some? ==> forall d :: d in r.value <==> When(d) in cells
  {
    if cells == [] then Some([])
    else
      var init, last := cells[..|cells| - 1], cells[|cells| - 1];
      assert cells == init + [last];
      match DateValues(init)
      case None => None
      case Some(ds) =>
        match last
        case When(d) => Some(ds + [d])
        case Missing => Some(ds)
        case _ => None
  }

  function MaxDate(ds: seq<Date>): (m: Date)
    requires |ds| > 0
    ensures m in ds && forall i :: 0 <= i < |ds| ==> ds[i] <= m
  {
    if |ds| == 1 then ds[0]
    else
      var m' := MaxDate(ds[..|ds| - 1]);
      assert forall i :: 0 <= i < |ds| - 1 ==> ds[..|ds| - 1][i] == ds[i];
      if ds[|ds| - 1] > m' then ds[|ds| - 1] else m'
  }

  // ---------------------------------------------------------------------------
  // Row selection

  /** The cells whose flag is set, in order. */
  function Keep<T>(cells: seq<T>, keep: seq<bool>): (r: seq<T>)
    requires |keep| == |cells|
    ensures |r| <= |cells|
  {
    if cells == [] then []
    else
      var rest := Keep(cells[..|cells| - 1], keep[..|keep| - 1]);
      if keep[|keep| - 1] then rest + [cells[|cells| - 1]] else rest
  }

  /** `Keep` selects input cells only, and every flagged cell. */
  lemma {:induction false} KeepMembers<T>(cells: seq<T>, keep: seq<bool>)
    requires |keep| == |cells|
    ensures forall x :: x in Keep(cells, keep) ==> x in cells
    ensures forall i :: 0 <= i < |cells| && keep[i] ==> cells[i] in Keep(cells, keep)
  {
    if cells != [] {
      var init := cells[..|cells| - 1];
      KeepMembers(init, keep[..|keep| - 1]);
      assert forall i :: 0 <= i < |init| ==> init[i] == cells[i];
      assert cells == init + [cells[|cells| - 1]];
    }
  }

  function CountTrue(keep: seq<bool>): nat
  {
    if keep == [] then 0 else CountTrue(keep[..|keep| - 1]) + (if keep[|keep| - 1] then 1 else 0)
  }

  lemma {:induction false} KeepLength<T>(cells: seq<T>, keep: seq<bool>)
    requires |keep| == |cells|
    ensures |Keep(cells, keep)| == CountTrue(keep)
  {
    if cells != [] {
      KeepLength(cells[..|cells| - 1], keep[..|keep| - 1]);
    }
  }

  /** `df[keep]`: the same columns, restricted to the flagged rows. */
  function KeepRows(f: Frame, keep: seq<bool>): (r: Frame)
    requires WellFormed(f) && |keep| == f.height
    ensures WellFormed(r) && r.names == f.names && r.columns.Keys == f.columns.Keys
    ensures r.height == CountTrue(keep)
    ensures forall n :: n in f.columns ==>
      r.columns[n] == Column(f.columns[n].kind, Keep(f.columns[n].cells, keep))
  {
    var cols := map n | n in f.columns :: Column(f.columns[n].kind, Keep(f.columns[n].cells, keep));
    forall n | n in f.columns ensures |cols[n].cells| == CountTrue(keep) && ColumnTyped(cols[n]) {
      KeepLength(f.columns[n].cells, keep);
      KeepMembers(f.columns[n].cells, keep);
      forall i | 0 <= i < |cols[n].cells| ensures CellFits(cols[n].kind, cols[n].cells[i]) {
        assert cols[n].cells[i] in f.columns[n].cells;
      }
    }
    Frame(f.names, cols, CountTrue(keep))
  }

  /** The rows whose date cell is not missing: `df.dropna(subset=['date'])`. */
  function DropMissingDates(f: Frame): (r: Frame)
    requires WellFormed(f) && "date" in f.columns
    ensures WellFormed(r) && r.names == f.names && r.columns.Keys == f.columns.Keys
    ensures forall i :: 0 <= i < |r.columns["date"].cells| ==> !r.columns["date"].cells[i].Missing?
    ensures forall n :: n in f.columns ==>
      r.columns[n] == Column(f.columns[n].kind, Keep(f.columns[n].cells, DatePresent(f.columns["date"].cells)))
  {
    var cells := f.columns["date"].cells;
    KeepPresent(cells);
    KeepRows(f, DatePresent(cells))
  }

  /** For each cell, whether it holds a value. */
  function DatePresent(cells: seq<Cell>): (keep: seq<bool>)
    ensures |keep| == |cells| && forall i :: 0 <= i < |cells| ==> keep[i] == !cells[i].Missing?
  {
    seq(|cells|, (i: int) requires 0 <= i < |cells| => !cells[i].Missing?)
  }

  /** Keeping the present cells leaves no missing one. */
  lemma {:induction false} KeepPresent(cells: seq<Cell>)
    ensures forall i :: 0 <= i < |Keep(cells, DatePresent(cells))| ==> !Keep(cells, DatePresent(cells))[i].Missing?
  {
    if cells != [] {
      var init := cells[..|cells| - 1];
      KeepPresent(init);
      assert DatePresent(cells)[..|cells| - 1] == DatePresent(init);
    }
  }

  /** Whether any date cell is missing: `df['date'].isnull().any()`. */
  predicate AnyMissing(cells: seq<Cell>)
  {
    exists i :: 0 <= i < |cells| && cells[i].Missing?
  }

  /** Replaces one existing column. */
  function SetColumn(f: Frame, name: string, col: Column): (r: Frame)
    requires WellFormed(f) && name in f.columns
    requires |col.cells| == f.height && ColumnTyped(col)
    ensures WellFormed(r) && r.names == f.names && r.height == f.height
    ensures r.columns == f.columns[name := col]
  {
    Frame(f.names, f.columns[name := col], f.height)
  }

  // ---------------------------------------------------------------------------
  // The table a hotel PDF report yields

  datatype HotelRecord = HotelRecord(
    date: Date,
    price: real,
    occupancyRate: real,
    roomsOccupied: real,
    roomsTotal: real,
    revenue: real)

  function RecordDate(r: HotelRecord): int
  {
    r.date
  }

  /** One row of a prediction table; None stands for NaN. */
  datatype ForecastRow = ForecastRow(date: Date, price: Option<real>, occupancyRate: Option<real>)

  /** The columns of `processed_data`, in their order. */
  const RecordColumns: seq<string> :=
    ["date", "price", "occupancy_rate", "chambres_occupees", "chambres_totales", "ca_total"]

  function NumberCells(xs: seq<real>): (cells: seq<Cell>)
    ensures |cells| == |xs| && forall i :: 0 <= i < |xs| ==> cells[i] == Num(xs[i])
  {
    seq(|xs|, (i: int) requires 0 <= i < |xs| => Num(xs[i]))
  }

  function PriceOf(r: HotelRecord): real { r.price }
  function OccupancyOf(r: HotelRecord): real { r.occupancyRate }
  function OccupiedOf(r: HotelRecord): real { r.roomsOccupied }
  function TotalOf(r: HotelRecord): real { r.roomsTotal }
  function RevenueOf(r: HotelRecord): real { r.revenue }

  /** The values of one field of the records, in record order. */
  function Field(recs: seq<HotelRecord>, get: HotelRecord -> real): (xs: seq<real>)
    ensures |xs| == |recs| && forall i :: 0 <= i < |recs| ==> xs[i] == get(recs[i])
  {
    seq(|recs|, (i: int) requires 0 <= i < |recs| => get(recs[i]))
  }

  /** A float column of the given values. */
  function NumberColumn(xs: seq<real>): (col: Column)
    ensures col.kind == Numeric && ColumnTyped(col) && col.cells == NumberCells(xs)
  {
    Column(Numeric, NumberCells(xs))
  }

  /** The `date` objects of the records, in an object column. */
  function DateColumn(recs: seq<HotelRecord>): (col: Column)
    ensures col.kind == Object && ColumnTyped(col) && |col.cells| == |recs|
    ensures forall i :: 0 <= i < |recs| ==> col.cells[i] == When(recs[i].date)
  {
    Column(Object, seq(|recs|, (i: int) requires 0 <= i < |recs| => When(recs[i].date)))
  }

  /** The column a record field fills, by the name `processed_data` gives it. */
  function RecordColumn(recs: seq<HotelRecord>, name: string): (col: Column)
    ensures ColumnTyped(col) && |col.cells| == |recs|
    ensures name == "date" ==> col == DateColumn(recs)
    ensures name != "date" ==> col.kind == Numeric
    ensures name == "price" ==> forall i :: 0 <= i < |recs| ==> col.cells[i] == Num(recs[i].price)
    ensures name == "occupancy_rate" ==> forall i :: 0 <= i < |recs| ==> col.cells[i] == Num(recs[i].occupancyRate)
    ensures name == "chambres_occupees" ==> forall i :: 0 <= i < |recs| ==> col.cells[i] == Num(recs[i].roomsOccupied)
    ensures name == "chambres_totales" ==> forall i :: 0 <= i < |recs| ==> col.cells[i] == Num(recs[i].roomsTotal)
    ensures name == "ca_total" ==> forall i :: 0 <= i < |recs| ==> col.cells[i] == Num(recs[i].revenue)
  {
    if name == "date" then DateColumn(recs)
    else if name == "price" then NumberColumn(Field(recs, PriceOf))
    else if name == "occupancy_rate" then NumberColumn(Field(recs, OccupancyOf))
    else if name == "chambres_occupees" then NumberColumn(Field(recs, OccupiedOf))
    else if name == "chambres_totales" then NumberColumn(Field(recs, TotalOf))
    else NumberColumn(Field(recs, RevenueOf))
  }

  /** `pd.DataFrame(processed_data)`: date objects in an object column, floats
      in numeric columns. */
  function RecordsFrame(recs: seq<HotelRecord>): (f: Frame)
    ensures WellFormed(f) && f.names == RecordColumns && f.height == |recs|
    ensures forall name :: name in f.columns ==> f.columns[name] == RecordColumn(recs, name)
  {
    var m := map name | name in RecordColumns :: RecordColumn(recs, name);
    assert forall i :: 0 <= i < |RecordColumns| ==> |RecordColumns[i]| == [4, 5, 14, 17, 16, 8][i];
    Frame(RecordColumns, m, |recs|)
  }
}
