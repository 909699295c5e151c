/** The demand forecaster of src/demand_forecasting.py: feature derivation
    over a date-sorted occupancy series (calendar fields, lags, trailing
    windows, dropna), and a forecaster object whose `model`, `features` and
    `isTrained` fields change under training, feature preparation and loading.

    The regressor itself (RandomForestRegressor fit/predict), the
    TimeSeriesSplit fold construction and np.std are parameters that obey only
    the shape they have in the source (a prediction per input row, folds of
    valid indices, a non-negative spread).  The sin/cos, event and weather
    columns are computed in floating point or drawn at random and never miss a
    value, so they are not part of the modelled rows. */
module DemandForecasting {
  import opened Common
  import opened Calendar
  import opened Sorting

  // ---------------------------------------------------------------------------
  // Observations and the derived columns of create_features

  datatype Observation = Observation(date: Date, occupancyRate: Option<real>)

  function ObservationDate(o: Observation): int
  {
    o.date
  }

  /** The shifts and window lengths of create_features. */
  const Lags: seq<nat> := [1, 7, 14, 30]
  const Windows: seq<nat> := [7, 14, 30]

  function OccupancyColumn(obs: seq<Observation>): (col: seq<Option<real>>)
    ensures |col| == |obs|
    ensures forall i :: 0 <= i < |obs| ==> col[i] == obs[i].occupancyRate
  {
    seq(|obs|, (i: int) requires 0 <= i < |obs| => obs[i].occupancyRate)
  }

  predicate AllPresent(s: seq<Option<real>>)
  {
    forall i :: 0 <= i < |s| ==> s[i].Some?
  }

  function Values(s: seq<Option<real>>): (v: seq<real>)
    requires AllPresent(s)
    ensures |v| == |s|
    ensures forall i :: 0 <= i < |s| ==> s[i] == Some(v[i])
  {
    seq(|s|, (i: int) requires 0 <= i < |s| => s[i].value)
  }

  /** pandas' `shift(k)`: row i holds row i - k, and the first k rows are missing. */
  function Shift(col: seq<Option<real>>, k: nat): (s: seq<Option<real>>)
    ensures |s| == |col|
    ensures forall i :: 0 <= i < |col| ==> s[i] == (if i >= k then col[i - k] else None)
  {
    seq(|col|, (i: int) requires 0 <= i < |col| => if i >= k then col[i - k] else None)
  }

  /** The w values ending at row i, as `rolling(window=w)` sees them: present
      only when the window fits and none of its values is missing. */
  function Window(col: seq<Option<real>>, i: nat, w: nat): (r: Option<seq<real>>)
    requires i < |col| && w >= 1
    ensures r.Some? <==> i + 1 >= w && forall j :: i + 1 - w <= j <= i ==> col[j].Some?
    ensures r.Some? ==> |r.value| == w && forall j :: 0 <= j < w ==> col[i + 1 - w + j] == Some(r.value[j])
  {
    if i + 1 >= w && AllPresent(col[i + 1 - w..i + 1]) then
      Some(Values(col[i + 1 - w..i + 1]))
    else
      assert i + 1 >= w ==> !AllPresent(col[i + 1 - w..i + 1]);
      assert i + 1 >= w ==> exists j :: i + 1 - w <= j <= i && col[j].None? by {
        if i + 1 >= w {
          var t :| 0 <= t < w && col[i + 1 - w..i + 1][t].None?;
          assert col[i + 1 - w + t].None?;
        }
      }
      None
  }

  /** Bessel-corrected variance of at least two values. */
  function SampleVariance(v: seq<real>): real
    requires |v| >= 2
  {
    var m := Mean(v);
    Sum(seq(|v|, (i: int) requires 0 <= i < |v| => (v[i] - m) * (v[i] - m))) / ((|v| - 1) as real)
  }

  /** `rolling(window=w).mean()`. */
  function RollingMean(col: seq<Option<real>>, w: nat): (s: seq<Option<real>>)
    requires w >= 1
    ensures |s| == |col|
    ensures forall i :: 0 <= i < |col| ==>
      (s[i].Some? <==> Window(col, i, w).Some?) &&
      (s[i].Some? ==> s[i].value == Mean(Window(col, i, w).value))
  {
    seq(|col|, (i: int) requires 0 <= i < |col| =>
      match Window(col, i, w)
      case Some(v) => Some(Mean(v))
      case None => None)
  }

  /** `rolling(window=w).std()`, squared: the sample variance of the window,
      missing where the window is missing or holds a single value. */
  function RollingVariance(col: seq<Option<real>>, w: nat): (s: seq<Option<real>>)
    requires w >= 1
    ensures |s| == |col|
    ensures forall i :: 0 <= i < |col| ==> (s[i].Some? <==> w >= 2 && Window(col, i, w).Some?)
    ensures forall i :: 0 <= i < |col| && s[i].Some? ==> s[i].value == SampleVariance(Window(col, i, w).value)
  {
    seq(|col|, (i: int) requires 0 <= i < |col| =>
      match Window(col, i, w)
      case Some(v) => if w >= 2 then Some(SampleVariance(v)) else None
      case None => None)
  }

  function LagColumns(occ: seq<Option<real>>): (cols: seq<seq<Option<real>>>)
    ensures |cols| == |Lags| && forall j :: 0 <= j < |Lags| ==> |cols[j]| == |occ|
  {
    seq(|Lags|, (j: int) requires 0 <= j < |Lags| => Shift(occ, Lags[j]))
  }

  function MeanColumns(occ: seq<Option<real>>): (cols: seq<seq<Option<real>>>)
    ensures |cols| == |Windows| && forall j :: 0 <= j < |Windows| ==> |cols[j]| == |occ|
  {
    seq(|Windows|, (j: int) requires 0 <= j < |Windows| => RollingMean(occ, Windows[j]))
  }

  function VarianceColumns(occ: seq<Option<real>>): (cols: seq<seq<Option<real>>>)
    ensures |cols| == |Windows| && forall j :: 0 <= j < |Windows| ==> |cols[j]| == |occ|
  {
    seq(|Windows|, (j: int) requires 0 <= j < |Windows| => RollingVariance(occ, Windows[j]))
  }

  // ---------------------------------------------------------------------------
  // Feature rows

  datatype CalendarFlags = CalendarFlags(isWeekend: int, isSummer: int, isWinter: int)

  /** The 0/1 flags of a day of the week and a month. */
  function Flags(dayOfWeek: int, month: int): (f: CalendarFlags)
    ensures 0 <= f.isWeekend <= 1 && 0 <= f.isSummer <= 1 && 0 <= f.isWinter <= 1
    ensures f.isWeekend == 1 <==> dayOfWeek >= 5
    ensures f.isSummer == 1 <==> 6 <= month <= 8
    ensures f.isWinter == 1 <==> month == 12 || month <= 2
    ensures f.isSummer + f.isWinter <= 1
  {
    CalendarFlags(
      if dayOfWeek >= 5 then 1 else 0,
      if 6 <= month <= 8 then 1 else 0,
      if month == 12 || month <= 2 then 1 else 0)
  }

  datatype FeatureRow = FeatureRow(
    date: Date,
    occupancyRate: Option<real>,
    dayOfWeek: int,
    month: int,
    weekOfYear: int,
    isWeekend: int,
    isSummer: int,
    isWinter: int,
    lags: seq<Option<real>>,
    rollingMeans: seq<Option<real>>,
    rollingVariances: seq<Option<real>>)

  /** Row i of the frame once the columns are added. */
  function RowFromColumns(sorted: seq<Observation>, lagCols: seq<seq<Option<real>>>,
                          meanCols: seq<seq<Option<real>>>, varCols: seq<seq<Option<real>>>, i: nat): (r: FeatureRow)
    requires i < |sorted|
    requires forall j :: 0 <= j < |lagCols| ==> |lagCols[j]| == |sorted|
    requires forall j :: 0 <= j < |meanCols| ==> |meanCols[j]| == |sorted|
    requires forall j :: 0 <= j < |varCols| ==> |varCols[j]| == |sorted|
    ensures r.date == sorted[i].date && r.occupancyRate == sorted[i].occupancyRate
    ensures r.dayOfWeek == DayOfWeek(r.date) && r.month == Month(r.date) && r.weekOfYear == IsoWeek(r.date)
    ensures r.isWeekend == 1 <==> r.dayOfWeek >= 5
    ensures r.isSummer == 1 <==> 6 <= r.month <= 8
    ensures r.isWinter == 1 <==> r.month == 12 || r.month <= 2
    ensures r.isSummer + r.isWinter <= 1
    ensures |r.lags| == |lagCols| && forall j :: 0 <= j < |lagCols| ==> r.lags[j] == lagCols[j][i]
    ensures |r.rollingMeans| == |meanCols| && forall j :: 0 <= j < |meanCols| ==> r.rollingMeans[j] == meanCols[j][i]
    ensures |r.rollingVariances| == |varCols| && forall j :: 0 <= j < |varCols| ==> r.rollingVariances[j] == varCols[j][i]
  {
    var d := sorted[i].date;
    var dow, m := DayOfWeek(d), Month(d);
    var flags := Flags(dow, m);
    FeatureRow(d, sorted[i].occupancyRate, dow, m, IsoWeek(d), flags.isWeekend, flags.isSummer, flags.isWinter,
      CellsAt(lagCols, i), CellsAt(meanCols, i), CellsAt(varCols, i))
  }

  /** Row i read across a group of columns. */
  function CellsAt(cols: seq<seq<Option<real>>>, i: nat): (r: seq<Option<real>>)
    requires forall j :: 0 <= j < |cols| ==> i < |cols[j]|
    ensures |r| == |cols| && forall j :: 0 <= j < |cols| ==> r[j] == cols[j][i]
  {
    seq(|cols|, (j: int) requires 0 <= j < |cols| => cols[j][i])
  }

  /** Row i of a date-sorted series with every derived column. */
  function FeatureRowAt(sorted: seq<Observation>, i: nat): (r: FeatureRow)
    requires i < |sorted|
    ensures r.date == sorted[i].date && r.occupancyRate == sorted[i].occupancyRate
    ensures r.dayOfWeek == DayOfWeek(r.date) && r.month == Month(r.date) && r.weekOfYear == IsoWeek(r.date)
    ensures r.isWeekend == 1 <==> r.dayOfWeek >= 5
    ensures r.isSummer == 1 <==> 6 <= r.month <= 8
    ensures r.isWinter == 1 <==> r.month == 12 || r.month <= 2
    ensures r.isSummer + r.isWinter <= 1
    ensures |r.lags| == |Lags| && forall j :: 0 <= j < |Lags| ==>
      r.lags[j] == (if i >= Lags[j] then sorted[i - Lags[j]].occupancyRate else None)
    ensures |r.rollingMeans| == |Windows| && forall j :: 0 <= j < |Windows| ==>
      MeanOfWindow(r.rollingMeans[j], OccupancyColumn(sorted), i, Windows[j])
    ensures |r.rollingVariances| == |Windows| && forall j :: 0 <= j < |Windows| ==>
      VarianceOfWindow(r.rollingVariances[j], OccupancyColumn(sorted), i, Windows[j])
  {
    var occ := OccupancyColumn(sorted);
    LagsAt(sorted, i);
    MeansAt(sorted, i);
    VariancesAt(sorted, i);
    RowFromColumns(sorted, LagColumns(occ), MeanColumns(occ), VarianceColumns(occ), i)
  }

  lemma {:induction false} LagsAt(sorted: seq<Observation>, i: nat)
    requires i < |sorted|
    ensures forall j :: 0 <= j < |Lags| ==>
      LagColumns(OccupancyColumn(sorted))[j][i] == (if i >= Lags[j] then sorted[i - Lags[j]].occupancyRate else None)
  {
    var occ := OccupancyColumn(sorted);
    forall j | 0 <= j < |Lags|
      ensures LagColumns(occ)[j][i] == (if i >= Lags[j] then sorted[i - Lags[j]].occupancyRate else None)
    {
      assert LagColumns(occ)[j] == Shift(occ, Lags[j]);
    }
  }

  /** m is the mean of the window of width w ending at row i, and missing
      exactly where that window is. */
  predicate MeanOfWindow(m: Option<real>, col: seq<Option<real>>, i: nat, w: nat)
  {
    && i < |col| && w >= 1
    && (m.Some? <==> Window(col, i, w).Some?)
    && (m.Some? ==> m.value == Mean(Window(col, i, w).value))
  }

  /** v is the sample variance of the window of width w ending at row i,
      and missing exactly where that window is. */
  predicate VarianceOfWindow(v: Option<real>, col: seq<Option<real>>, i: nat, w: nat)
  {
    && i < |col| && w >= 2
    && (v.Some? <==> Window(col, i, w).Some?)
    && (v.Some? ==> v.value == SampleVariance(Window(col, i, w).value))
  }

  lemma {:induction false} MeansAt(sorted: seq<Observation>, i: nat)
    requires i < |sorted|
    ensures forall j :: 0 <= j < |Windows| ==>
      MeanOfWindow(MeanColumns(OccupancyColumn(sorted))[j][i], OccupancyColumn(sorted), i, Windows[j])
  {
    var occ := OccupancyColumn(sorted);
    forall j | 0 <= j < |Windows|
      ensures MeanOfWindow(MeanColumns(occ)[j][i], occ, i, Windows[j])
    {
      assert MeanColumns(occ)[j] == RollingMean(occ, Windows[j]);
    }
  }

  lemma {:induction false} VariancesAt(sorted: seq<Observation>, i: nat)
    requires i < |sorted|
    ensures forall j :: 0 <= j < |Windows| ==>
      VarianceOfWindow(VarianceColumns(OccupancyColumn(sorted))[j][i], OccupancyColumn(sorted), i, Windows[j])
  {
    var occ := OccupancyColumn(sorted);
    forall j | 0 <= j < |Windows|
      ensures VarianceOfWindow(VarianceColumns(occ)[j][i], occ, i, Windows[j])
    {
      assert VarianceColumns(occ)[j] == RollingVariance(occ, Windows[j]);
      assert Windows[j] >= 2;
    }
  }

  /** The frame before dropna: one row per observation, in date order. */
  function Featurize(sorted: seq<Observation>): (rows: seq<FeatureRow>)
    ensures |rows| == |sorted|
    ensures forall i :: 0 <= i < |sorted| ==> rows[i] == FeatureRowAt(sorted, i)
  {
    seq(|sorted|, (i: int) requires 0 <= i < |sorted| => FeatureRowAt(sorted, i))
  }

  /** A row dropna keeps: nothing missing. */
  predicate Complete(r: FeatureRow)
  {
    r.occupancyRate.Some? && AllPresent(r.lags) && AllPresent(r.rollingMeans) && AllPresent(r.rollingVariances)
  }

  /** pandas' `dropna()`: the complete rows, in their order. */
  function DropNa(rows: seq<FeatureRow>): (kept: seq<FeatureRow>)
    ensures |kept| <= |rows|
  {
    if rows == [] then []
    else
      var init, last := rows[..|rows| - 1], rows[|rows| - 1];
      if Complete(last) then DropNa(init) + [last] else DropNa(init)
  }

  /** dropna keeps exactly the complete rows. */
  lemma {:induction false} DropNaMembers(rows: seq<FeatureRow>)
    ensures forall r :: r in DropNa(rows) <==> r in rows && Complete(r)
  {
    if rows != [] {
      var init, last := rows[..|rows| - 1], rows[|rows| - 1];
      DropNaMembers(init);
      DropNaStep(rows);
      assert rows == init + [last];
    }
  }

  /** What create_features returns for a set of observations. */
  function FeatureTable(data: seq<Observation>): seq<FeatureRow>
  {
    DropNa(Featurize(SortBy(data, ObservationDate)))
  }

  /** create_features: sort by date, add the lag columns and then the rolling
      columns in loops, and drop the rows with a missing value. */
  method CreateFeatures(data: seq<Observation>) returns (rows: seq<FeatureRow>)
    ensures rows == FeatureTable(data)
    ensures forall r :: r in rows ==> Complete(r)
    ensures forall i, j :: 0 <= i < j < |rows| ==> rows[i].date <= rows[j].date
  {
    var sorted := SortBy(data, ObservationDate);
    var occ := OccupancyColumn(sorted);
    var lagColumns: seq<seq<Option<real>>> := [];
    for k := 0 to |Lags|
      invariant lagColumns == LagColumns(occ)[..k]
    {
      assert LagColumns(occ)[..k + 1] == LagColumns(occ)[..k] + [Shift(occ, Lags[k])];
      lagColumns := lagColumns + [Shift(occ, Lags[k])];
    }
    var meanColumns: seq<seq<Option<real>>> := [];
    var varianceColumns: seq<seq<Option<real>>> := [];
    for k := 0 to |Windows|
      invariant meanColumns == MeanColumns(occ)[..k]
      invariant varianceColumns == VarianceColumns(occ)[..k]
    {
      assert MeanColumns(occ)[..k + 1] == MeanColumns(occ)[..k] + [RollingMean(occ, Windows[k])];
      assert VarianceColumns(occ)[..k + 1] == VarianceColumns(occ)[..k] + [RollingVariance(occ, Windows[k])];
      meanColumns := meanColumns + [RollingMean(occ, Windows[k])];
      varianceColumns := varianceColumns + [RollingVariance(occ, Windows[k])];
    }
    assert lagColumns == LagColumns(occ) && meanColumns == MeanColumns(occ) && varianceColumns == VarianceColumns(occ);
    var frame := seq(|sorted|, (i: int) requires 0 <= i < |sorted| =>
      RowFromColumns(sorted, lagColumns, meanColumns, varianceColumns, i));
    assert frame == Featurize(sorted);
    rows := DropNa(frame);
    DropNaMembers(frame);
    FeaturesInDateOrder(data);
  }

  // ---------------------------------------------------------------------------
  // Properties of the feature table

  /** DropNa keeps the relative order of the rows it keeps. */
  lemma {:induction false} DropNaKeepsDateOrder(rows: seq<FeatureRow>)
    requires forall i, j :: 0 <= i < j < |rows| ==> rows[i].date <= rows[j].date
    ensures forall i, j :: 0 <= i < j < |DropNa(rows)| ==> DropNa(rows)[i].date <= DropNa(rows)[j].date
  {
    if rows != [] {
      var init, last := rows[..|rows| - 1], rows[|rows| - 1];
      DropNaKeepsDateOrder(init);
      DropNaMembers(init);
      forall r | r in DropNa(init) ensures r.date <= last.date {
        var k :| 0 <= k < |init| && init[k] == r;
      }
    }
  }

  /** create_features returns its rows in ascending date order. */
  lemma {:induction false} FeaturesInDateOrder(data: seq<Observation>)
    ensures forall i, j :: 0 <= i < j < |FeatureTable(data)| ==> FeatureTable(data)[i].date <= FeatureTable(data)[j].date
  {
    var sorted := SortBy(data, ObservationDate);
    SortByFacts(data, ObservationDate);
    DropNaKeepsDateOrder(Featurize(sorted));
  }

  /** When every row of a frame is complete exactly from index t on, dropna
      removes exactly the first t rows. */
  lemma {:induction false} DropNaFromThreshold(rows: seq<FeatureRow>, t: nat)
    requires forall i :: 0 <= i < |rows| ==> (Complete(rows[i]) <==> i >= t)
    ensures DropNa(rows) == if |rows| >= t then rows[t..] else []
  {
    if |rows| >= t {
      CompleteSuffixKept(rows, t);
      var head := rows[..t];
      forall i | 0 <= i < |head| ensures !Complete(head[i]) {
        assert head[i] == rows[i];
      }
      NoneCompleteNoneKept(head);
    } else {
      NoneCompleteNoneKept(rows);
    }
  }

  /** dropna keeps nothing of rows none of which is complete. */
  lemma {:induction false} NoneCompleteNoneKept(rows: seq<FeatureRow>)
    requires forall i :: 0 <= i < |rows| ==> !Complete(rows[i])
    ensures DropNa(rows) == []
  {
    if rows != [] {
      var init := rows[..|rows| - 1];
      assert forall i :: 0 <= i < |init| ==> init[i] == rows[i];
      NoneCompleteNoneKept(init);
      DropNaStep(rows);
    }
  }

  /** dropna keeps a run of complete rows at the end whole. */
  lemma {:induction false} CompleteSuffixKept(rows: seq<FeatureRow>, t: nat)
    requires t <= |rows|
    requires forall i :: t <= i < |rows| ==> Complete(rows[i])
    ensures DropNa(rows) == DropNa(rows[..t]) + rows[t..]
    decreases |rows|
  {
    if |rows| == t {
      assert rows[..t] == rows;
    } else {
      var n := |rows| - 1;
      var init := rows[..n];
      assert forall i :: t <= i < |init| ==> init[i] == rows[i];
      CompleteSuffixKept(init, t);
      assert init[..t] == rows[..t];
      var head := DropNa(rows[..t]);
      assert DropNa(init) == head + init[t..];
      assert Complete(rows[n]);
      DropNaStep(rows);
      assert DropNa(rows) == (head + init[t..]) + [rows[n]];
      assert rows[t..] == init[t..] + [rows[n]];
      assert (head + init[t..]) + [rows[n]] == head + (init[t..] + [rows[n]]);
    }
  }

  /** dropna on one more row. */
  lemma {:induction false} DropNaStep(rows: seq<FeatureRow>)
    requires rows != []
    ensures DropNa(rows) ==
      if Complete(rows[|rows| - 1]) then DropNa(rows[..|rows| - 1]) + [rows[|rows| - 1]]
      else DropNa(rows[..|rows| - 1])
  {
  }

  /** With no occupancy missing, the row at index i is complete exactly when
      i >= 30: the longest lag reaches back 30 rows, the longest window 29. */
  lemma {:induction false} CompleteFromThirty(sorted: seq<Observation>, i: nat)
    requires forall k :: 0 <= k < |sorted| ==> sorted[k].occupancyRate.Some?
    requires i < |sorted|
    ensures Complete(FeatureRowAt(sorted, i)) <==> i >= 30
  {
    var r := FeatureRowAt(sorted, i);
    var occ := OccupancyColumn(sorted);
    if i >= 30 {
      forall j | 0 <= j < |Windows| ensures Window(occ, i, Windows[j]).Some? {
        assert Windows[j] <= 30;
      }
      forall j | 0 <= j < |Lags| ensures r.lags[j].Some? {
        assert Lags[j] <= 30;
      }
      assert AllPresent(r.rollingVariances) by {
        forall j | 0 <= j < |Windows| ensures r.rollingVariances[j].Some? {
          assert Windows[j] >= 2;
        }
      }
    } else {
      assert Lags[3] == 30;
      assert r.lags[3].None?;
    }
  }

  /** Featurizing n rows with no missing occupancy, in the order given,
      leaves a missing value in exactly the first 30 of them, so dropna
      keeps the last max(n - 30, 0). */
  lemma {:induction false} DropsFirstThirty(obs: seq<Observation>)
    requires forall k :: 0 <= k < |obs| ==> obs[k].occupancyRate.Some?
    ensures DropNa(Featurize(obs)) == if |obs| >= 30 then Featurize(obs)[30..] else []
    ensures |DropNa(Featurize(obs))| == if |obs| >= 30 then |obs| - 30 else 0
  {
    forall i | 0 <= i < |obs| ensures Complete(Featurize(obs)[i]) <==> i >= 30 {
      CompleteFromThirty(obs, i);
    }
    DropNaFromThreshold(Featurize(obs), 30);
  }

  /** create_features over n rows with no missing occupancy: the date-sorted
      rows from the 31st on, max(n - 30, 0) of them. */
  lemma {:induction false} FeatureTableDropsFirstThirty(data: seq<Observation>)
    requires forall k :: 0 <= k < |data| ==> data[k].occupancyRate.Some?
    ensures var sorted := SortBy(data, ObservationDate);
      FeatureTable(data) == if |sorted| >= 30 then Featurize(sorted)[30..] else []
    ensures |FeatureTable(data)| == if |data| >= 30 then |data| - 30 else 0
  {
    var sorted := SortBy(data, ObservationDate);
    SortByFacts(data, ObservationDate);
    SortByKeeps(data, ObservationDate, (o: Observation) => o.occupancyRate.Some?);
    DropsFirstThirty(sorted);
  }

  // ---------------------------------------------------------------------------
  // The regressor and the cross-validation (parameters obeying the source's shapes)

  /** `RandomForestRegressor(n_estimators, max_depth, random_state, n_jobs)`
      with its fitted state, whose content the model does not look into. */
  datatype Regressor = RandomForest(nEstimators: int, maxDepth: int, randomState: int, nJobs: int, fitted: seq<real>)

  function UnfittedForest(): Regressor
  {
    RandomForest(100, 10, 42, -1, [])
  }

  predicate SameSettings(a: Regressor, b: Regressor)
  {
    a.nEstimators == b.nEstimators && a.maxDepth == b.maxDepth && a.randomState == b.randomState && a.nJobs == b.nJobs
  }

  /** `model.fit(X, y)`: changes the fitted state only. */
  type Fitter = fit: (Regressor, seq<seq<real>>, seq<real>) -> Regressor
    | forall m, X, y :: SameSettings(fit(m, X, y), m)
    witness (m: Regressor, X: seq<seq<real>>, y: seq<real>) => m

  /** `model.predict(X)`: one prediction per row of X. */
  type Predictor = predict: (Regressor, seq<seq<real>>) -> seq<real>
    | forall m, X :: |predict(m, X)| == |X|
    witness (m: Regressor, X: seq<seq<real>>) => seq(|X|, (i: int) => 0.0)

  /** `np.std`: never negative. */
  type Spread = spread: seq<real> -> real
    | forall v :: spread(v) >= 0.0
    witness (v: seq<real>) => 0.0

  datatype Fold = Fold(train: seq<nat>, validation: seq<nat>)

  predicate ValidFold(f: Fold, n: nat)
  {
    && |f.train| > 0 && |f.validation| > 0
    && (forall i :: 0 <= i < |f.train| ==> f.train[i] < n)
    && (forall i :: 0 <= i < |f.validation| ==> f.validation[i] < n)
  }

  /** `TimeSeriesSplit(n_splits=k).split` over n samples: k folds of valid
      indices, and an error when there are not more than k samples. */
  ghost predicate ValidSplit(folds: Option<seq<Fold>>, k: nat, n: nat)
  {
    && (folds.None? <==> n <= k)
    && (folds.Some? ==> |folds.value| == k && forall i :: 0 <= i < |folds.value| ==> ValidFold(folds.value[i], n))
  }

  type Splitter = split: (nat, nat) -> Option<seq<Fold>>
    | forall k, n :: ValidSplit(split(k, n), k, n)
    witness (k: nat, n: nat) => if n <= k then None else Some(seq(k, (i: int) => Fold([0], [0])))

  const NumberOfSplits: nat := 5

  function Select<T>(s: seq<T>, idx: seq<nat>): (r: seq<T>)
    requires forall i :: 0 <= i < |idx| ==> idx[i] < |s|
    ensures |r| == |idx| && forall i :: 0 <= i < |idx| ==> r[i] == s[idx[i]]
  {
    seq(|idx|, (i: int) requires 0 <= i < |idx| => s[idx[i]])
  }

  function Abs(x: real): real { if x < 0.0 then -x else x }

  /** `mean_absolute_error`. */
  function MeanAbsoluteError(yTrue: seq<real>, yPred: seq<real>): (mae: real)
    requires |yTrue| == |yPred| > 0
    ensures mae >= 0.0
  {
    var errors := seq(|yTrue|, (i: int) requires 0 <= i < |yTrue| => Abs(yTrue[i] - yPred[i]));
    MeanNonNegative(errors);
    Mean(errors)
  }

  /** The model after the fold loop and the MAE of each fold, in fold order. */
  function CrossValidation(fit: Fitter, predict: Predictor, model: Regressor,
                           X: seq<seq<real>>, y: seq<real>, folds: seq<Fold>): (res: (Regressor, seq<real>))
    requires |X| == |y|
    requires forall i :: 0 <= i < |folds| ==> ValidFold(folds[i], |X|)
    ensures |res.1| == |folds|
    ensures forall i :: 0 <= i < |folds| ==> res.1[i] >= 0.0
    ensures SameSettings(res.0, model)
  {
    if folds == [] then (model, [])
    else
      var (m, scores) := CrossValidation(fit, predict, model, X, y, folds[..|folds| - 1]);
      var f := folds[|folds| - 1];
      assert ValidFold(f, |X|);
      var m' := fit(m, Select(X, f.train), Select(y, f.train));
      assert |predict(m', Select(X, f.validation))| == |f.validation|;
      (m', scores + [MeanAbsoluteError(Select(y, f.validation), predict(m', Select(X, f.validation)))])
  }

  /** The fold loop of train: fit on each training part, score the MAE on the
      validation part, and carry the refitted model to the next fold. */
  method CrossValidate(fit: Fitter, predict: Predictor, model: Regressor,
                       X: seq<seq<real>>, y: seq<real>, folds: seq<Fold>)
    returns (fitted: Regressor, maeScores: seq<real>)
    requires |X| == |y|
    requires forall i :: 0 <= i < |folds| ==> ValidFold(folds[i], |X|)
    ensures (fitted, maeScores) == CrossValidation(fit, predict, model, X, y, folds)
    ensures |maeScores| == |folds| && forall i :: 0 <= i < |folds| ==> maeScores[i] >= 0.0
  {
    fitted, maeScores := model, [];
    for k := 0 to |folds|
      invariant (fitted, maeScores) == CrossValidation(fit, predict, model, X, y, folds[..k])
    {
      assert folds[..k + 1][..k] == folds[..k];
      var fold := folds[k];
      fitted := fit(fitted, Select(X, fold.train), Select(y, fold.train));
      var yPred := predict(fitted, Select(X, fold.validation));
      var mae := MeanAbsoluteError(Select(y, fold.validation), yPred);
      maeScores := maeScores + [mae];
    }
    assert folds[..|folds|] == folds;
  }

  // ---------------------------------------------------------------------------
  // Feature matrix (prepare_features)

  /** The 24 names prepare_features assigns to `features`. */
  const FeatureColumns: seq<string> := [
    "day_of_week", "month", "week_of_year", "is_weekend",
    "is_summer", "is_winter", "day_sin", "day_cos",
    "month_sin", "month_cos", "occupancy_lag_1", "occupancy_lag_7",
    "occupancy_lag_14", "occupancy_lag_30", "occupancy_ma_7",
    "occupancy_ma_14", "occupancy_ma_30", "occupancy_std_7",
    "occupancy_std_14", "occupancy_std_30", "has_event",
    "event_impact", "temperature", "is_rain"]

  function OrZero(o: Option<real>): real
  {
    match o
    case Some(v) => v
    case None => 0.0
  }

  function Present(s: seq<Option<real>>): (v: seq<real>)
    ensures |v| == |s|
  {
    seq(|s|, (i: int) requires 0 <= i < |s| => OrZero(s[i]))
  }

  /** The modelled features of one row, in the order of FeatureColumns. */
  function FeatureVector(r: FeatureRow): seq<real>
  {
    [r.dayOfWeek as real, r.month as real, r.weekOfYear as real,
     r.isWeekend as real, r.isSummer as real, r.isWinter as real]
    + Present(r.lags) + Present(r.rollingMeans) + Present(r.rollingVariances)
  }

  function FeatureMatrix(rows: seq<FeatureRow>): (X: seq<seq<real>>)
    ensures |X| == |rows|
  {
    seq(|rows|, (i: int) requires 0 <= i < |rows| => FeatureVector(rows[i]))
  }

  /** A complete row's feature vector holds its calendar features and then
      its lag, rolling-mean and rolling-variance values themselves, none of
      them replaced by 0. */
  lemma {:induction false} FeatureMatrixEntries(rows: seq<FeatureRow>, i: nat)
    requires i < |rows| && Complete(rows[i])
    ensures var x, r := FeatureMatrix(rows)[i], rows[i];
      && |x| == 6 + |r.lags| + |r.rollingMeans| + |r.rollingVariances|
      && x[0] == r.dayOfWeek as real && x[1] == r.month as real && x[2] == r.weekOfYear as real
      && x[3] == r.isWeekend as real && x[4] == r.isSummer as real && x[5] == r.isWinter as real
      && (forall j :: 0 <= j < |r.lags| ==> Some(x[6 + j]) == r.lags[j])
      && (forall j :: 0 <= j < |r.rollingMeans| ==> Some(x[6 + |r.lags| + j]) == r.rollingMeans[j])
      && (forall j :: 0 <= j < |r.rollingVariances| ==>
            Some(x[6 + |r.lags| + |r.rollingMeans| + j]) == r.rollingVariances[j])
  {
    var r := rows[i];
    var x := FeatureMatrix(rows)[i];
    assert x == FeatureVector(r);
    var head := [r.dayOfWeek as real, r.month as real, r.weekOfYear as real,
                 r.isWeekend as real, r.isSummer as real, r.isWinter as real];
    assert x == head + Present(r.lags) + Present(r.rollingMeans) + Present(r.rollingVariances);
    forall j | 0 <= j < |r.lags| ensures Some(x[6 + j]) == r.lags[j] {
      assert x[6 + j] == Present(r.lags)[j];
    }
    forall j | 0 <= j < |r.rollingMeans| ensures Some(x[6 + |r.lags| + j]) == r.rollingMeans[j] {
      assert x[6 + |r.lags| + j] == Present(r.rollingMeans)[j];
    }
    forall j | 0 <= j < |r.rollingVariances| ensures Some(x[6 + |r.lags| + |r.rollingMeans| + j]) == r.rollingVariances[j] {
      assert x[6 + |r.lags| + |r.rollingMeans| + j] == Present(r.rollingVariances)[j];
    }
  }

  function Targets(rows: seq<FeatureRow>): (y: seq<real>)
    ensures |y| == |rows|
    ensures forall i :: 0 <= i < |rows| ==> rows[i].occupancyRate == Some(y[i]) || rows[i].occupancyRate.None?
  {
    seq(|rows|, (i: int) requires 0 <= i < |rows| => OrZero(rows[i].occupancyRate))
  }

  // ---------------------------------------------------------------------------
  // Predictions

  datatype Prediction = Prediction(date: Date, predictedOccupancy: real, lowerBound: real, upperBound: real, roomType: string)

  /** `max(0, p - 1.96 s)` and `min(1, p + 1.96 s)`. */
  function ConfidenceBounds(p: real, s: real): (b: (real, real))
    requires s >= 0.0
    ensures 0.0 <= b.0 && b.1 <= 1.0
    ensures 0.0 <= p <= 1.0 ==> b.0 <= p <= b.1
  {
    (Max(0.0, p - 1.96 * s), Min(1.0, p + 1.96 * s))
  }

  /** The results DataFrame: pandas rejects columns of different lengths. */
  function ResultsTable(dates: seq<Date>, predictions: seq<real>, roomType: string, s: real): (r: Result<seq<Prediction>>)
    requires s >= 0.0
    ensures r.Failure? <==> |dates| != |predictions|
    ensures r.Failure? ==> r.error == LengthMismatch
    ensures r.Success? ==> |r.value| == |dates| && forall i :: 0 <= i < |dates| ==>
      && r.value[i].date == dates[i] && r.value[i].predictedOccupancy == predictions[i]
      && 0.0 <= r.value[i].lowerBound && r.value[i].upperBound <= 1.0
      && (0.0 <= predictions[i] <= 1.0 ==> r.value[i].lowerBound <= predictions[i] <= r.value[i].upperBound)
      && r.value[i].roomType == roomType
  {
    if |dates| != |predictions| then Failure(LengthMismatch)
    else Success(seq(|dates|, (i: int) requires 0 <= i < |dates| =>
      var b := ConfidenceBounds(predictions[i], s);
      Prediction(dates[i], predictions[i], b.0, b.1, roomType)))
  }

  /** The simulated future of predict_demand: one observation a day from start,
      each with the month's base occupancy. */
  function FutureObservations(start: Date, days: nat, seasonal: int -> real): (obs: seq<Observation>)
    ensures |obs| == days
    ensures forall i :: 0 <= i < days ==> obs[i].date == start + i && obs[i].occupancyRate.Some?
  {
    seq(days, (i: int) requires 0 <= i < days => Observation(start + i, Some(seasonal(Month(start + i)))))
  }

  /** The simulated future loses its first 30 days to the lag and window columns. */
  lemma {:induction false} FutureFeaturesDropThirty(start: Date, days: nat, seasonal: int -> real)
    ensures var rows := FeatureTable(FutureObservations(start, days, seasonal));
      && |rows| == (if days >= 30 then days - 30 else 0)
      && forall i :: 0 <= i < |rows| ==> rows[i].date == start + 30 + i
  {
    var obs := FutureObservations(start, days, seasonal);
    assert SortedBy(obs, ObservationDate);
    SortBySorted(obs, ObservationDate);
    DropsFirstThirty(obs);
    var rows := FeatureTable(obs);
    assert rows == DropNa(Featurize(obs));
    forall i | 0 <= i < |rows| ensures rows[i].date == start + 30 + i {
      assert rows[i] == Featurize(obs)[30 + i];
    }
  }

  /** The loop of predict_demand that simulates the future: one observation
      per day, at the seasonal occupancy of its month. */
  method SimulateFuture(start: Date, days: nat, seasonal: int -> real) returns (future: seq<Observation>)
    ensures future == FutureObservations(start, days, seasonal)
  {
    future := [];
    for i := 0 to days
      invariant future == FutureObservations(start, days, seasonal)[..i]
    {
      future := future + [Observation(start + i, Some(seasonal(Month(start + i))))];
    }
  }

  /** The rows create_features keeps of the simulated future: the days from start + 30 on. */
  function FutureFeatureTable(start: Date, days: nat, seasonal: int -> real): (rows: seq<FeatureRow>)
    ensures rows == FeatureTable(FutureObservations(start, days, seasonal))
    ensures |rows| == if days >= 30 then days - 30 else 0
    ensures forall i :: 0 <= i < |rows| ==> rows[i].date == start + 30 + i
  {
    FutureFeaturesDropThirty(start, days, seasonal);
    FeatureTable(FutureObservations(start, days, seasonal))
  }

  /** The results table over the surviving future rows: one prediction a
      day from start + 30, each inside its clipped band. */
  lemma {:induction false} AlignedTable(start: Date, days: nat, seasonal: int -> real,
                                        predictions: seq<real>, roomType: string, s: real)
    requires days > 30 && s >= 0.0 && |predictions| == days - 30
    ensures var r := ResultsTable(Dates(FutureFeatureTable(start, days, seasonal)), predictions, roomType, s);
      && r.Success? && |r.value| == days - 30
      && (forall i :: 0 <= i < days - 30 ==> r.value[i].date == start + 30 + i)
      && forall i :: 0 <= i < days - 30 ==>
        && r.value[i].predictedOccupancy == predictions[i]
        && 0.0 <= r.value[i].lowerBound && r.value[i].upperBound <= 1.0
        && (0.0 <= predictions[i] <= 1.0 ==> r.value[i].lowerBound <= predictions[i] <= r.value[i].upperBound)
  {
    var rows := FutureFeatureTable(start, days, seasonal);
    assert forall i :: 0 <= i < |rows| ==> Dates(rows)[i] == start + 30 + i;
  }

  /** pd.date_range(start, periods=days, freq='D'). */
  function DateRange(start: Date, days: nat): (dates: seq<Date>)
    ensures |dates| == days && forall i :: 0 <= i < days ==> dates[i] == start + i
  {
    seq(days, (i: int) requires 0 <= i < days => start + i)
  }

  function Dates(rows: seq<FeatureRow>): (dates: seq<Date>)
    ensures |dates| == |rows| && forall i :: 0 <= i < |rows| ==> dates[i] == rows[i].date
  {
    seq(|rows|, (i: int) requires 0 <= i < |rows| => rows[i].date)
  }

  // ---------------------------------------------------------------------------
  // The forecaster object

  /** What save_model writes and load_model reads back. */
  datatype Bundle = Bundle(model: Regressor, features: Option<seq<string>>, isTrained: bool)

  /** The files joblib writes, by path. */
  class ModelStore {
    var files: map<string, Bundle>

    constructor ()
      ensures files == map[]
    {
      files := map[];
    }
  }

  datatype ImportanceRow = ImportanceRow(feature: Option<string>, importance: real)

  class DemandForecaster {
    var model: Regressor
    var features: Option<seq<string>>
    var isTrained: bool

    /** A new forecaster: an unfitted forest, no feature list, not trained. */
    constructor ()
      ensures model == UnfittedForest() && features == None && !isTrained
    {
      model := UnfittedForest();
      features := None;
      isTrained := false;
    }

    /** prepare_features: records the feature list and splits X from y. */
    method PrepareFeatures(rows: seq<FeatureRow>) returns (X: seq<seq<real>>, y: seq<real>)
      modifies this
      ensures features == Some(FeatureColumns)
      ensures model == old(model) && isTrained == old(isTrained)
      ensures X == FeatureMatrix(rows) && y == Targets(rows)
    {
      features := Some(FeatureColumns);
      X, y := FeatureMatrix(rows), Targets(rows);
    }

    /** train: features, five time-series folds each fitted and scored, a final
        fit on everything; returns the mean fold MAE.  The feature list is
        recorded before the split can fail. */
    method Train(data: seq<Observation>, fit: Fitter, predict: Predictor, split: Splitter)
      returns (r: Result<real>)
      modifies this
      ensures features == Some(FeatureColumns)
      ensures var rows := FeatureTable(data);
        var X, y := FeatureMatrix(rows), Targets(rows);
        var folds := split(NumberOfSplits, |rows|);
        && (r.Failure? <==> |rows| <= NumberOfSplits)
        && (r.Failure? ==> r.error == TooFewSamples && model == old(model) && isTrained == old(isTrained))
        && (r.Success? ==>
              var cv := CrossValidation(fit, predict, old(model), X, y, folds.value);
              && isTrained
              && r.value == Mean(cv.1) && r.value >= 0.0
              && model == fit(cv.0, X, y)
              && SameSettings(model, old(model)))
    {
      var rows := CreateFeatures(data);
      var X, y := PrepareFeatures(rows);
      var folds := split(NumberOfSplits, |X|);
      if folds.None? {
        return Failure(TooFewSamples);
      }
      var fitted, maeScores := CrossValidate(fit, predict, model, X, y, folds.value);
      MeanNonNegative(maeScores);
      model := fit(fitted, X, y);
      isTrained := true;
      r := Success(Mean(maeScores));
    }

    /** predict_demand as written: the result table pairs all `days` dates with
        the predictions of the rows create_features keeps, which are 30 fewer.
        So once trained it always fails: no dates give no 'date' column, up to
        30 days give no rows to predict, more give columns of unequal length. */
    method PredictDemand(start: Date, days: nat, roomType: string, seasonal: int -> real,
                         predict: Predictor, spread: Spread)
      returns (r: Result<seq<Prediction>>)
      modifies this
      ensures r.Failure?
      ensures !old(isTrained) ==> r.error == NotTrained
      ensures old(isTrained) ==>
        r.error == (if days == 0 then MissingColumn("date") else if days <= 30 then EmptyInput else LengthMismatch)
      ensures model == old(model) && isTrained == old(isTrained)
      ensures features == (if old(isTrained) && days > 0 then Some(FeatureColumns) else old(features))
    {
      if !isTrained {
        return Failure(NotTrained);
      }
      var dates := DateRange(start, days);
      var future := SimulateFuture(start, days, seasonal);
      if days == 0 {
        return Failure(MissingColumn("date"));
      }
      var rows := CreateFeatures(future);
      var X, _ := PrepareFeatures(rows);
      FutureFeaturesDropThirty(start, days, seasonal);
      if |X| == 0 {
        return Failure(EmptyInput);
      }
      var predictions := predict(model, X);
      var s := spread(predictions) * 0.1;
      r := ResultsTable(dates, predictions, roomType, s);
    }

    /** predict_demand with the table built from the dates of the rows that
        survive create_features, so that dates and predictions line up. */
    method PredictDemandAligned(start: Date, days: nat, roomType: string, seasonal: int -> real,
                                predict: Predictor, spread: Spread)
      returns (r: Result<seq<Prediction>>)
      modifies this
      ensures !old(isTrained) ==> r == Failure(NotTrained)
      ensures old(isTrained) && days == 0 ==> r == Failure(MissingColumn("date"))
      ensures old(isTrained) && 0 < days <= 30 ==> r == Failure(EmptyInput)
      ensures r.Success? <==> old(isTrained) && days > 30
      ensures r.Success? ==> |r.value| == days - 30
      ensures r.Success? ==> forall i :: 0 <= i < days - 30 ==> r.value[i].date == start + 30 + i
      ensures r.Success? ==>
        var predictions := predict(model, FeatureMatrix(FutureFeatureTable(start, days, seasonal)));
        forall i :: 0 <= i < days - 30 ==>
          && r.value[i].predictedOccupancy == predictions[i]
          && 0.0 <= r.value[i].lowerBound && r.value[i].upperBound <= 1.0
          && (0.0 <= predictions[i] <= 1.0 ==> r.value[i].lowerBound <= predictions[i] <= r.value[i].upperBound)
      ensures model == old(model) && isTrained == old(isTrained)
      ensures features == (if old(isTrained) && days > 0 then Some(FeatureColumns) else old(features))
    {
      if !isTrained {
        return Failure(NotTrained);
      }
      var future := SimulateFuture(start, days, seasonal);
      if days == 0 {
        return Failure(MissingColumn("date"));
      }
      var rows := CreateFeatures(future);
      var X, _ := PrepareFeatures(rows);
      ghost var table := FutureFeatureTable(start, days, seasonal);
      assert rows == table;
      if |X| == 0 {
        return Failure(EmptyInput);
      }
      var predictions := predict(model, X);
      var s := spread(predictions) * 0.1;
      AlignedTable(start, days, seasonal, predictions, roomType, s);
      r := ResultsTable(Dates(rows), predictions, roomType, s);
    }

    /** get_feature_importance: None until trained; otherwise the feature names
        beside the model's importances. */
    method GetFeatureImportance(importances: Regressor -> seq<real>)
      returns (r: Option<Result<seq<ImportanceRow>>>)
      ensures r.None? <==> !isTrained
      ensures r.Some? && features.Some? ==>
        (r.value.Failure? <==> |features.value| != |importances(model)|)
      ensures r.Some? && r.value.Success? ==>
        var imp := importances(model);
        && |r.value.value| == |imp|
        && forall i :: 0 <= i < |imp| ==>
          r.value.value[i] == ImportanceRow(if features.Some? then Some(features.value[i]) else None, imp[i])
    {
      if !isTrained {
        return None;
      }
      var imp := importances(model);
      match features {
        case Some(names) =>
          if |names| != |imp| {
            return Some(Failure(LengthMismatch));
          }
          r := Some(Success(seq(|imp|, (i: int) requires 0 <= i < |imp| => ImportanceRow(Some(names[i]), imp[i]))));
        case None =>
          r := Some(Success(seq(|imp|, (i: int) requires 0 <= i < |imp| => ImportanceRow(None, imp[i]))));
      }
    }

    /** save_model: writes the three-field bundle at path. */
    method SaveModel(store: ModelStore, path: string)
      modifies store
      ensures store.files == old(store.files)[path := Bundle(model, features, isTrained)]
    {
      store.files := store.files[path := Bundle(model, features, isTrained)];
    }

    /** load_model: restores the three fields from the bundle at path. */
    method LoadModel(store: ModelStore, path: string) returns (r: Result<Bundle>)
      modifies this
      ensures path !in store.files ==>
        && r == Failure(FileNotFound(path))
        && model == old(model) && features == old(features) && isTrained == old(isTrained)
      ensures path in store.files ==>
        && r == Success(store.files[path])
        && model == store.files[path].model && features == store.files[path].features
        && isTrained == store.files[path].isTrained
    {
      if path !in store.files {
        return Failure(FileNotFound(path));
      }
      var bundle := store.files[path];
      model, features, isTrained := bundle.model, bundle.features, bundle.isTrained;
      r := Success(bundle);
    }
  }

  /** Loading what was saved at a path restores the saved forecaster's fields. */
  method SaveThenLoad(saved: DemandForecaster, loaded: DemandForecaster, store: ModelStore, path: string)
    modifies store, loaded
    ensures loaded.model == old(saved.model)
    ensures loaded.features == old(saved.features)
    ensures loaded.isTrained == old(saved.isTrained)
  {
    saved.SaveModel(store, path);
    var r := loaded.LoadModel(store, path);
  }
}
