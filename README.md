# Hotel revenue optimizer — a verified model of its decision core

This project models the core of the hotel revenue optimizer in Dafny. That core has four parts.

- **The dynamic pricing engine** (`src/pricing_engine.py`):
  - the rules table per room type;
  - the price-elasticity demand curve, clipped to [0.05, 0.98];
  - RevPAR = price × demand;
  - the bounded optimisation of the price, with its reported metrics;
  - the rule-based recommendations;
  - the scenario grid;
  - the opportunity flags of the historical insights.
- **The demand forecaster** (`src/demand_forecasting.py`):
  - feature derivation over a date-sorted occupancy series: calendar flags, lags, trailing means and variances, and `dropna`;
  - a `DemandForecaster` class whose `model`, `features` and `isTrained` fields change under `prepare_features`, `train` and `load_model`;
  - the saved-model store, a map from path to bundle.
- **The two upload paths** of the Streamlit apps (`app/streamlit_app.py` and the top-level `streamlit_app.py`):
  - numeric cleaning;
  - reading the rows of a hotel PDF report into records: the number tokenizer, the date search and the token-to-field mapping;
  - dispatch on the file suffix;
  - the 30-day fallback predictor.
- **The data processor** (`src/data_processor.py`): the cleaning of a frame and its summary metrics.

Modules:

| module | file | models |
|---|---|---|
| `Common` | common.dfy | Option/Result, sums and means with their bounds, numpy's clip |
| `Calendar` | calendar.dfy | day numbers, month, weekday, ISO week; `strptime('%d.%m.%y')` |
| `Sorting` | sorting.dfy | `sort_values` on an integer key, as a stable insertion sort |
| `PricingEngine` | pricing.dfy | src/pricing_engine.py |
| `DemandForecasting` | forecasting.dfy | src/demand_forecasting.py |
| `Frames` | frames.dfy | the slice of pandas used here: typed columns, aggregates that skip NaN, `to_datetime`, row selection, the table of PDF records |
| `DataProcessor` | data_processor.dfy | src/data_processor.py |
| `RowText` | row_text.dfy | `' '.join`, `str.strip`, `float()` on decimal texts, `re.findall(r'(\d+[\.,]?\d*)')`, the date search, the record layout |
| `UploadApp` | upload_app.dfy | app/streamlit_app.py |
| `UploadRoot` | upload_root.dfy | streamlit_app.py |

Some external facilities are parameters that keep only the properties the source relies on:

- Python's real power `**`: a `Pow` obeying the power laws.
- scipy's `minimize_scalar`: a `Minimizer` returning a point of its interval.
- `RandomForestRegressor` fit and predict.
- `TimeSeriesSplit`.
- `np.std`.
- `pd.to_datetime`: a `DateParser` per cell.
- The tables tabula extracts.
- The random draws.

Tables are sequences of records, or frames of typed columns. NaN and NaT are `None` or `Missing`.

## Model

| member | source | states |
|---|---|---|
| `PricingEngine.PricingRules` | src/pricing_engine.py:21-40 | exactly the three room types, each with 0 < min < base < max and a negative elasticity |
| `PricingEngine.RulesFor` | src/pricing_engine.py:96 | a known room type gets its own rules, any other the Standard rules |
| `PricingEngine.ResolveBound` | src/pricing_engine.py:99-100 | `given or fallback`: the given bound unless it is None or 0 |
| `PricingEngine.ReferencePrice` | src/pricing_engine.py:103-106 | the mean of non-empty competitor prices (between their min and max), else the base price |
| `PricingEngine.DemandFunction` | src/pricing_engine.py:42-62 | always in [0.05, 0.98]; equal to the raw `base·ratio^elasticity` when that lies in the band; `clip(base)` when price equals the competitor average |
| `PricingEngine.DemandNonIncreasing` | src/pricing_engine.py:56-62 | for elasticity < 0, base ≥ 0 and a positive reference, a higher price never gives a higher demand |
| `PricingEngine.RevenueFunction` | src/pricing_engine.py:64-72 | the revenue lies between 0.05·price and 0.98·price, in the order the sign of the price gives |
| `PricingEngine.OccupancyObjectiveLeastAtLowerBound` | src/pricing_engine.py:109-115 | under the occupancy target, the objective at the lower bound is at most that at any higher price |
| `PricingEngine.CompetitorCheck` | src/pricing_engine.py:145-150 | at most one competitor message: above iff prices are given and price > 1.15·mean; the opportunity message iff not above and price < 0.85·mean |
| `PricingEngine.DemandCheck` | src/pricing_engine.py:152-155 | at most one demand message: high iff > 0.90, low iff not high and < 0.60 |
| `PricingEngine.BoundCheck` | src/pricing_engine.py:157-160 | at most one bound message: near-minimum iff ≤ 1.05·min, premium iff not that and ≥ 0.95·max |
| `PricingEngine.GenerateRecommendations` | src/pricing_engine.py:141-162 | the recommendations follow the order competitor → demand → bound, one of each at most, and each appears under its condition |
| `PricingEngine.PriceReport` | src/pricing_engine.py:121-139 | the occupancy is the demand at the returned price, in [0.05, 0.98]; revpar = price·occupancy; vs-competition = (price/avg − 1)·100; the recommendations for that price and demand |
| `PricingEngine.CalculateOptimalPrice` | src/pricing_engine.py:74-139 | fails iff the resolved bounds are inverted or the reference price is 0; otherwise the price lies in [min, max] and the report is the one for that price |
| `PricingEngine.Ceil` | src/pricing_engine.py:175 | the least integer not below x, which gives the length of `np.arange` |
| `PricingEngine.PriceGrid` | src/pricing_engine.py:175 | `np.arange(min, max, 5)`: strictly increasing points min + 5i, all in [min, max), with the next point ≥ max |
| `PricingEngine.GridSizeFacts` | src/pricing_engine.py:175 | every grid point lies in [lo, hi) and the first point past the grid reaches hi |
| `PricingEngine.StepsIncrease` | src/pricing_engine.py:175 | grid points strictly increase with the index |
| `PricingEngine.ScenarioAt` | src/pricing_engine.py:184-193 | one scenario row: occupancy is the demand at that price, in [0.05, 0.98]; revpar = price·occupancy |
| `PricingEngine.Scenarios` | src/pricing_engine.py:182-193 | the loop yields one scenario row per grid price, in grid order |
| `PricingEngine.DefaultGridDemandFalls` | src/pricing_engine.py:175-193 | on the default grid of a room type, occupancy never rises down the scenario table |
| `PricingEngine.ScenarioAnalysis` | src/pricing_engine.py:164-195 | fails iff the reference price is 0; otherwise one row per grid price in grid order; on the default grid, occupancy is non-increasing down the table |
| `PricingEngine.RevparColumn` | src/pricing_engine.py:208 | revpar is price × occupancy_rate row by row |
| `PricingEngine.GetPricingInsights` | src/pricing_engine.py:197-244 | the three means; price volatility = std/mean; occupancy volatility and correlation the given std and correlation; the low-sensitivity flag iff correlation > −0.3; the volatility flag iff std/mean > 0.15; in that order |
| `PricingEngine.AvgRevparAtMostAvgPrice` | src/pricing_engine.py:208-215 | for prices ≥ 0 and occupancies in [0, 1], 0 ≤ mean revpar ≤ mean price |
| `PricingEngine.RevparSumBound` | src/pricing_engine.py:208 | under the same bounds, the sum of revpar is at most the sum of prices |
| `DemandForecasting.OccupancyColumn` | src/demand_forecasting.py:64 | the occupancy column, one entry per observation |
| `DemandForecasting.Shift` | src/demand_forecasting.py:63-64 | `shift(k)`: entry i is entry i−k, None for the first k |
| `DemandForecasting.Window` | src/demand_forecasting.py:67-69 | the trailing window of w values ending at i, present iff i+1 ≥ w and all w are present |
| `DemandForecasting.RollingMean` | src/demand_forecasting.py:68 | entry i is the mean of the window ending at i, None when the window is incomplete |
| `DemandForecasting.RollingVariance` | src/demand_forecasting.py:69 | entry i is present iff w ≥ 2 and the window is complete, and is then the sample variance of that window |
| `DemandForecasting.Flags` | src/demand_forecasting.py:52-54 | weekend iff day ≥ 5, summer iff month in 6-8, winter iff month is 12, 1 or 2; never both summer and winter |
| `DemandForecasting.FeatureRowAt` | src/demand_forecasting.py:49-69 | row i carries its date and occupancy, the calendar fields of its date, lags equal to the shifted occupancy, and each rolling mean and variance the mean and sample variance of the window ending at i, missing exactly where that window is |
| `DemandForecasting.Featurize` | src/demand_forecasting.py:44-69 | one feature row per date-sorted observation |
| `DemandForecasting.DropNaMembers` | src/demand_forecasting.py:79 | a row is kept iff it is an input row and complete |
| `DemandForecasting.NoneCompleteNoneKept` | src/demand_forecasting.py:79 | with no complete row, dropna keeps nothing |
| `DemandForecasting.CreateFeatures` | src/demand_forecasting.py:34-79 | the feature table: rows complete and in date order |
| `DemandForecasting.DropNaKeepsDateOrder` | src/demand_forecasting.py:79 | dropping rows keeps date order |
| `DemandForecasting.FeaturesInDateOrder` | src/demand_forecasting.py:46-79 | the feature table is in date order |
| `DemandForecasting.DropNaFromThreshold` | src/demand_forecasting.py:79 | when rows are complete exactly from index t, dropna keeps the suffix from t |
| `DemandForecasting.CompleteFromThirty` | src/demand_forecasting.py:63-69 | with no missing occupancy, row i is complete iff i ≥ 30 |
| `DemandForecasting.DropsFirstThirty` | src/demand_forecasting.py:67-79 | featurizing n rows with no missing occupancy, in their given order, and dropping incomplete rows keeps the last max(n−30, 0) |
| `DemandForecasting.FeatureTableDropsFirstThirty` | src/demand_forecasting.py:63-79 | create_features over n rows with no missing occupancy is the date-sorted featurized rows from the 31st on, max(n−30, 0) of them |
| `DemandForecasting.Select` | src/demand_forecasting.py:115-116 | `iloc[idx]`: the selected rows in index order |
| `DemandForecasting.MeanAbsoluteError` | src/demand_forecasting.py:120 | the MAE is non-negative |
| `DemandForecasting.CrossValidation` | src/demand_forecasting.py:114-121 | one non-negative score per fold; the model settings are unchanged |
| `DemandForecasting.CrossValidate` | src/demand_forecasting.py:112-121 | the fold loop computes the cross-validation scores, one non-negative MAE per fold |
| `DemandForecasting.Targets` | src/demand_forecasting.py:94 | the target column, one value per row |
| `DemandForecasting.ConfidenceBounds` | src/demand_forecasting.py:176-177 | 0 ≤ lower and upper ≤ 1; lower ≤ p ≤ upper whenever 0 ≤ p ≤ 1 |
| `DemandForecasting.ResultsTable` | src/demand_forecasting.py:173-179 | fails with a length mismatch iff dates and predictions differ in number; otherwise rows pair them with bounds as above |
| `DemandForecasting.SimulateFuture` | src/demand_forecasting.py:150-159 | the loop builds one observation a day from start, each with its month's base occupancy |
| `DemandForecasting.FutureObservations` | src/demand_forecasting.py:147-161 | `days` observations dated start + i, each with an occupancy |
| `DemandForecasting.FutureFeaturesDropThirty` | src/demand_forecasting.py:150-164 | the future feature table has max(days−30, 0) rows, dated start+30 onwards |
| `DemandForecasting.FutureFeatureTable` | src/demand_forecasting.py:164 | the same facts about the future feature table |
| `DemandForecasting.DateRange` | src/demand_forecasting.py:147 | `date_range(start, periods=days)`: start + i |
| `DemandForecasting.ModelStore.constructor` | src/demand_forecasting.py:197 | an empty file store |
| `DemandForecasting.DemandForecaster.constructor` | src/demand_forecasting.py:24-32 | an unfitted forest with the source's settings, no features, not trained |
| `DemandForecasting.FeatureMatrixEntries` | src/demand_forecasting.py:81-94 | a complete row's feature vector holds its six calendar features, then its lag, rolling-mean and rolling-variance values themselves, none replaced by 0 |
| `DemandForecasting.DemandForecaster.PrepareFeatures` | src/demand_forecasting.py:81-94 | records the fixed 24-name feature list and returns X and y; nothing else changes |
| `DemandForecasting.DemandForecaster.Train` | src/demand_forecasting.py:96-128 | features always set; fails iff too few rows for 5 splits, leaving model and state; otherwise trained, returns the mean fold MAE (≥ 0), and the model is the final fit on all rows |
| `DemandForecasting.DemandForecaster.PredictDemand` | src/demand_forecasting.py:130-181 | untrained: NotTrained; trained: always fails (no dates, no rows to predict, or a date/prediction length mismatch) |
| `DemandForecasting.DemandForecaster.PredictDemandAligned` | src/demand_forecasting.py:130-181 | succeeds iff trained and days > 30, with days−30 rows dated start+30+i holding the predictions and bounds in [0, 1] |
| `DemandForecasting.DemandForecaster.GetFeatureImportance` | src/demand_forecasting.py:183-193 | None iff untrained; otherwise the feature names beside the importances |
| `DemandForecasting.DemandForecaster.SaveModel` | src/demand_forecasting.py:195-202 | the store maps the path to the three-field bundle; other paths are unchanged |
| `DemandForecasting.DemandForecaster.LoadModel` | src/demand_forecasting.py:204-210 | a missing path fails and leaves the fields; otherwise the three fields are those of the bundle |
| `DemandForecasting.SaveThenLoad` | src/demand_forecasting.py:195-210 | loading what was saved at a path restores model, features and is_trained |
| `Common.MaxOf` | src/data_processor.py:32 | the maximum is an element and bounds all elements |
| `Common.MinOf` | src/data_processor.py:33 | the minimum is an element and is below all elements |
| `Common.MeanBetweenMinAndMax` | src/data_processor.py:31-33 | min ≤ mean ≤ max |
| `Common.MeanNonNegative` | src/demand_forecasting.py:128 | the mean of non-negative values is non-negative |
| `Common.Clip` | src/pricing_engine.py:62 | `np.clip`: the result is in [lo, hi], x itself when x is in range, else the nearer bound |
| `Common.ClipMonotone` | src/pricing_engine.py:62 | clipping preserves order |
| `Calendar.DayOfWeek` | src/demand_forecasting.py:49 | a weekday number in 0..6 |
| `Calendar.DayOfWeekCycle` | src/demand_forecasting.py:49 | the next day has the next weekday number mod 7, a week later the same one, and the epoch is a Thursday (3), so with the 2024 anchor Monday is 0 … Sunday 6 |
| `Calendar.IsoWeek` | src/demand_forecasting.py:51 | an ISO week number in 1..53 |
| `Calendar.ShortYear` | streamlit_app.py:98 | `%y`: 00-68 → 2000s, 69-99 → 1900s, with the same last two digits |
| `Calendar.StrptimeDayMonthShortYear` | streamlit_app.py:97-98 | succeeds iff the month is 1-12 and the day exists in that month; gives that calendar day |
| `Calendar.NewYear2024Anchor` | src/demand_forecasting.py:49 | 2024-01-01 is day 19723, a Monday |
| `Sorting.SortByFacts` | streamlit_app.py:137 | the sort is in key order and a permutation of its input |
| `Sorting.SortBySorted` | src/demand_forecasting.py:46 | sorting already sorted rows changes nothing |
| `Frames.NumericValues` | src/data_processor.py:31-35 | the numbers of a column, NaN skipped; None iff a cell is text or a date, where the aggregation raises |
| `Frames.MeanSkipNa` | src/data_processor.py:31 | `mean()`: NaN iff no value; otherwise between min and max |
| `Frames.MaxSkipNa` | src/data_processor.py:32 | `max()`: an element that bounds all values |
| `Frames.MinSkipNa` | src/data_processor.py:33 | `min()`: an element below all values |
| `Frames.ToDatetime` | src/data_processor.py:20-21 | `to_datetime(errors='coerce')`: a datetime column, each cell its parse or NaT |
| `Frames.ToDatetimeKeepsDates` | src/data_processor.py:20-21 | a datetime column converts to itself |
| `Frames.DateValues` | streamlit_app.py:166 | the dates of a column, NaT skipped; None iff a cell is not a date |
| `Frames.MaxDate` | streamlit_app.py:166 | an element that bounds all dates |
| `Frames.KeepMembers` | app/streamlit_app.py:134 | row selection keeps only input cells, and every flagged cell |
| `Frames.DropMissingDates` | app/streamlit_app.py:134 | `dropna(subset=['date'])`: same columns; no missing date; each column keeps the rows whose date is present |
| `Frames.SetColumn` | src/data_processor.py:17 | replaces one column, keeps the frame well formed |
| `Frames.RecordColumn` | app/streamlit_app.py:100-106 | each list of `processed_data` has one typed entry per record: the record's date, price, occupancy, rooms occupied, rooms total or revenue by the column's name |
| `Frames.RecordsFrame` | app/streamlit_app.py:112 | `pd.DataFrame(processed_data)`: the six columns of equal height, each the list of its field |
| `DataProcessor.ToNumeric` | src/data_processor.py:15-17 | `to_numeric(errors='coerce')`: numbers stay, anything else becomes NaN |
| `DataProcessor.ToNumericKeepsNumbers` | src/data_processor.py:15-17 | a numeric column converts to itself |
| `DataProcessor.CleanData` | src/data_processor.py:9-23 | same names and height; columns other than 'date' are unchanged; 'date', if present, is its to_datetime conversion; the input is not modified |
| `DataProcessor.ColumnNumbers` | src/data_processor.py:31-35 | the present numbers, or a TypeError iff a cell is not numeric |
| `DataProcessor.CalculateMetrics` | src/data_processor.py:26-37 | a TypeError iff a present price or occupancy column holds text or dates; the three price keys iff 'price' exists, the occupancy key iff 'occupancy_rate' exists, no other key; values are mean/max/min skipping NaN; min ≤ avg ≤ max |
| `RowText.PresentCells` | app/streamlit_app.py:85 | the cells other than 'nan', membership both ways |
| `RowText.AllMissingRowJoinsEmpty` | app/streamlit_app.py:73 | a row with every cell missing joins to "", so rows `dropna(how='all')` removes are skipped anyway |
| `RowText.Strip` | streamlit_app.py:73 | no leading or trailing whitespace, as `str.isspace` counts it (ASCII 09-0D, 1C-20 and the Unicode spaces); empty iff the text is all whitespace |
| `RowText.ReplaceChar` | app/streamlit_app.py:98 | `replace(from, to)` character by character |
| `RowText.DigitsValue` | app/streamlit_app.py:98 | the integer of d digits is below 10^d |
| `RowText.Fraction` | app/streamlit_app.py:98 | the digits after a point give a value in [0, 1) |
| `RowText.ParseUnsigned` | app/streamlit_app.py:98 | a non-negative value; an all-digit text reads as its integer |
| `RowText.ParseDecimal` | app/streamlit_app.py:98 | `float()` of a decimal text; a blank text does not read |
| `RowText.SpansFindAll` | app/streamlit_app.py:97 | the scan meets the reference meaning of findall: leftmost, greedy, non-overlapping matches with no digit outside them |
| `RowText.FindAllUnique` | app/streamlit_app.py:97 | that reference meaning has exactly one solution, the scan |
| `RowText.TokenPassesFilter` | app/streamlit_app.py:98 | the `isdigit` filter keeps every regex match |
| `RowText.TokenFloat` | app/streamlit_app.py:98 | every match reads as a float, with ',' as '.' |
| `RowText.NumbersAreTokenValues` | app/streamlit_app.py:97-98 | the numbers of a row are exactly its tokens' values, one for one |
| `RowText.FindDate` | streamlit_app.py:92 | `re.search` of `\d{2}\.\d{2}\.\d{2}`: the leftmost match position, or no position matches |
| `RowText.LongDateEnd` | app/streamlit_app.py:89 | `\d{2,4}` takes up to two more digits, greedily |
| `RowText.ShortDate` | streamlit_app.py:97-98 | the strptime reading of the dd.mm.yy found |
| `RowText.RecordsFromRows` | app/streamlit_app.py:84-106 | every record comes from a row that yields it, and every such row's record is kept |
| `RowText.NoReadableRowNoRecords` | app/streamlit_app.py:114-116 | no readable row, no record |
| `RowText.RecordOf` | app/streamlit_app.py:100-106 | rooms occupied n[6], rooms total n[7], occupancy n[8]/100, price n[10], revenue n[11] |
| `UploadApp.CoerceCell` | app/streamlit_app.py:42-45 | every cell becomes a number or NaN; a number stays |
| `UploadApp.CleanNumericSeries` | app/streamlit_app.py:38-45 | a numeric series unchanged; otherwise a numeric series of the coerced cells, same length |
| `UploadApp.CommaDecimals` | app/streamlit_app.py:43 | "12,5" reads as 12.5 |
| `UploadApp.LongDateText` | app/streamlit_app.py:89-94 | the first `dd.dd.dd(dd)` text, or None iff there is none |
| `UploadApp.RowRecordSpec` | app/streamlit_app.py:85-106 | a row yields a record iff its text is not blank, holds a date pandas reads and has ≥ 12 tokens; fields are token values 6, 7, 8/100, 10, 11 |
| `UploadApp.ReadRow` | app/streamlit_app.py:85-110 | the loop body yields exactly the row's record |
| `UploadApp.ReadRecords` | app/streamlit_app.py:84-110 | the row loop collects exactly the records of the rows that yield one, in row order |
| `UploadApp.PdfTable` | app/streamlit_app.py:47-125 | a table iff tabula is there, tables exist and a row yields a record; six columns, one row per record |
| `UploadApp.ParseHotelPdf` | app/streamlit_app.py:47-125 | the row loop computes that table, from the records of the rows in order |
| `UploadApp.CsvTable` | app/streamlit_app.py:131-135 | the date column converted with invalid dates dropped; every other column keeps the same rows |
| `UploadApp.LoadUploadedFile` | app/streamlit_app.py:127-143 | '.csv' → the converted CSV; '.pdf' → the report table; otherwise None |
| `UploadApp.DropUndated` | app/streamlit_app.py:133-134 | the date column keeps its converted dates, every other column the cells of the rows whose date converted |
| `UploadApp.DatedRows` | app/streamlit_app.py:155-158 | the converted date column with NaT rows dropped; every other column keeps the rows of the converted dates when one is missing, and is unchanged otherwise |
| `UploadApp.ValidDates` | app/streamlit_app.py:156-158 | only dates remain, and every converted date remains |
| `UploadApp.Summarize` | app/streamlit_app.py:150-176 | None when a required column is missing or no date converts; with the columns present and a date that converts, None exactly when a kept price or occupancy cell is not a number; the last date is the latest converted date, and the two averages are the NaN-skipping means of the kept price and occupancy cells |
| `UploadApp.LastValidDate` | app/streamlit_app.py:155-164 | a returned date is the latest converted date; None exactly when no cell converts |
| `UploadApp.LatestDate` | app/streamlit_app.py:155-164 | the same over one column: the latest converted date, None exactly when no cell converts |
| `UploadApp.PredictedPrice` | app/streamlit_app.py:189-190 | NaN iff the mean is NaN; for avg ≥ 0 in [0.5·avg, 2·avg], the clip of the draw |
| `UploadApp.PredictedOccupancy` | app/streamlit_app.py:194-195 | in [0.05, 0.99], the clip of the draw |
| `UploadApp.GeneratePredictions` | app/streamlit_app.py:145-209 | None iff the summary fails or the occupancy spread is negative; otherwise `days` rows dated last+1 … last+days with clamped prices and occupancies |
| `UploadApp.Forecast` | app/streamlit_app.py:184-202 | the loop yields `days` rows of those dates and clamped draws |
| `UploadRoot.FloatCell` | streamlit_app.py:39 | numbers and NaN stay; a text reads with ',' as '.' or fails; a date fails |
| `UploadRoot.CleanCells` | streamlit_app.py:39 | succeeds iff every cell reads; then cell by cell |
| `UploadRoot.CleanNumericSeries` | streamlit_app.py:37-39 | no coercion: fails iff a cell does not read; otherwise a float column of the read cells |
| `UploadRoot.CleanKeepsNumbers` | streamlit_app.py:131-134 | a float column cleans to itself |
| `UploadRoot.StripCells` | streamlit_app.py:72-73 | every cell stripped |
| `UploadRoot.RowRecordSpec` | streamlit_app.py:86-117 | a row yields a record iff its stripped text is not blank, holds a `dd.mm.yy` that strptime accepts and has ≥ 12 tokens; fields as in the app |
| `UploadRoot.FourDigitYearReadsShort` | streamlit_app.py:92-98 | "05.03.2024" reads as 5 March 2020 |
| `UploadRoot.ReadRow` | streamlit_app.py:86-121 | the loop body yields exactly the row's record |
| `UploadRoot.ReadRecords` | streamlit_app.py:86-121 | the row loop collects exactly the records of the rows that yield one, in row order |
| `UploadRoot.CleanNumericColumns` | streamlit_app.py:124-134 | the cleaning loop leaves the records' table: its float columns clean to themselves |
| `UploadRoot.SortedRecords` | streamlit_app.py:137 | the records in date order, a permutation of the input |
| `UploadRoot.PdfTable` | streamlit_app.py:41-146 | a table iff tabula is there, tables exist and a row yields a record; then the sorted table |
| `UploadRoot.SortedTable` | streamlit_app.py:124-137 | six columns, one row per record, all dates present and non-decreasing |
| `UploadRoot.SortedDates` | streamlit_app.py:137 | the date column of sorted records is in date order |
| `UploadRoot.ParseHotelPdf` | streamlit_app.py:41-146 | the row loop, the cleaning loop and the sort compute that table |
| `UploadRoot.UploadedTable` | streamlit_app.py:148-160 | '.csv' → the CSV as read; '.pdf' → the report table; otherwise None |
| `UploadRoot.LoadUploadedFile` | streamlit_app.py:148-160 | the dispatch computes that result |
| `UploadRoot.LastDate` | streamlit_app.py:166-167 | TypeError over a non-date cell; otherwise the latest date, an element that bounds all dates |
| `UploadRoot.ColumnMean` | streamlit_app.py:171-172 | KeyError for a missing column, TypeError over text or dates, else the mean skipping NaN |
| `UploadRoot.ScaledPrice` | streamlit_app.py:171 | unclamped: NaN iff the mean is NaN; can exceed 2·avg |
| `UploadRoot.ClippedOccupancy` | streamlit_app.py:172 | in [0, 1], the product itself when in range |
| `UploadRoot.GeneratePredictions` | streamlit_app.py:162-175 | a KeyError for a missing date column; `max()` raises TypeError unless the cells are numbers or NaN, a datetime column, all texts or all dates; with days > 0 the `+ timedelta` then needs a last date; the price mean's error comes next; succeeds iff all these pass and both means exist; on success `days` rows dated last+1 … last+days, prices unclipped, occupancies in [0, 1] |
| `UploadRoot.CsvTextDatesRaise` | streamlit_app.py:151-167 | a CSV comes back with its dates as read; a text date makes the predictor raise TypeError whenever days > 0 or a date is missing, while with days = 0 a date column of texts only gives the empty table exactly when both means exist |
| `UploadRoot.GeneratePredictionsParsingDates` | streamlit_app.py:162-175 | with the dates converted first: succeeds iff both means exist and, when days > 0, a date converts; then `days` rows from the day after the last date of the converted column, which is the latest convertible date |
| `UploadRoot.ParsedLastDate` | app/streamlit_app.py:155-164 | after to_datetime a last date exists iff a cell converts, and it is the latest one |

## Left out

- Plotting, the Streamlit screens and startup code are not part of this model: `src/dashboard.py`, `display_metrics`, `main`, `run_app`, app.py, main.py, setup.py, config.py, create_sample_data.py. They are presentation and configuration.
- The file I/O is not modelled: the tabula extraction, the temporary files, `read_csv` and joblib. The tables tabula returns, as the texts of their cells, are inputs. The CSV frame is an input. The saved-model store is a map in a class.
- The store is a compiled (non-ghost) map, because `load_model` assigns what it reads to the compiled fields.
- The optimiser, the regressor, its fold splitter, `feature_importances_` and `np.std` are parameters. They satisfy only the shape the source relies on.
- The feature importance table is not sorted by `sort_values('importance')`.
- Rounding is not modelled. This covers `round(…, 2)` in `calculate_optimal_price` and `.round(2)`.
- Transcendental columns are not modelled: the sin/cos cyclical features, the random event and weather columns, and `daily_performance` (`groupby`, `day_name`). They never miss a value, so they never affect `dropna`.
- `PricingEngine.GetPricingInsights`: std, correlation and volatility arithmetic are given as inputs, because they involve sqrt and floating point. It requires a non-empty history with a non-zero mean price, where pandas would give NaN.
- `PricingEngine.DemandFunction`: it requires a non-zero reference price. Callers return a `ZeroReferencePrice` error where numpy would produce inf or NaN. A non-positive price ratio is not modelled either: a negative `min_price`, which `or` keeps, or negative competitor prices make numpy's `ratio ** elasticity` NaN or inf. `Pow` is left unconstrained there, so the banded result is not numpy's.
- `DemandForecasting.RollingVariance`: rolling std is modelled by the sample variance. sqrt is floating point; presence of a value is the same.
- The random draws of both `generate_predictions` are inputs. The trend terms and std spreads of the app's predictor only shape the draw and are left to it. A NaN draw is `None`.
- `pd.to_datetime` (with or without `dayfirst`) is a per-cell parser. Dates are day numbers, and times of day are not modelled.
- `RowText.ParseDecimal`: exponents, `inf`, `nan` and underscores, which Python's `float()` accepts, read as errors. Only ASCII digits are recognised as digits.
- `UploadRoot.FloatCell`: a text cell 'nan' fails here, where Python reads it as NaN.
- `Sorting.SortBy`: it is stable. pandas' default quicksort may order rows with equal dates differently.
- `DataProcessor.CalculateMetrics`: a datetime-typed price or occupancy column is a TypeError here. pandas can average datetimes.
- `UploadRoot.GeneratePredictions`: with days > 0, a date column with no date at all is an `EmptyInput` error here. pandas raises a TypeError for an all-NaN numeric or object column and gives NaT dates for an all-NaT datetime column. `max()` over an object column follows pandas 2, which puts -inf in place of a missing cell before comparing; older pandas versions that skip the missing cell instead accept texts or dates with NaN.
- `DemandForecasting.CreateFeatures`: an observation carries only a parsed date and the occupancy. Three things the source does are not modelled. `dropna()` also drops rows with a missing value in any other column the caller passes, such as a NaN price or the `room_type=None` of `predict_demand`. `pd.to_datetime` raises on a date it cannot read, and a missing date becomes NaT, which `dropna` removes. `days` is a `nat`, so the `ValueError` `date_range` raises for a negative count is not modelled.
- `dropna(how='all')` on the extracted tables is not applied. `RowText.AllMissingRowJoinsEmpty` shows that the rows it removes are skipped by the row loop anyway.
- The six lists of `processed_data` are one list of records, so their equal length holds by construction.
- Frames are values, so `df.copy()` is implicit.
- Signed zeros in the occupancy spread are not modelled.

## Findings

| source | as written | input that shows it | evidently intended | confidence | as-written member | corrected member |
|---|---|---|---|---|---|---|
| src/demand_forecasting.py:164-179 | the results table pairs all `days` dates with the predictions of the rows `create_features` keeps, which are 30 fewer | a trained forecaster with `predict_demand('2024-01-01', days=31)`: 31 dates and 1 prediction, so pandas raises; for up to 30 days no row is left to predict | one prediction per kept row, dated by that row | medium, not executed | `DemandForecasting.DemandForecaster.PredictDemand` | `DemandForecasting.DemandForecaster.PredictDemandAligned` |
| streamlit_app.py:151-167 | a CSV upload is returned as `read_csv` gives it, with the dates as text, and `generate_predictions` adds a `timedelta` to the max of that column for each of its `days` ≥ 1 days | a CSV `date,price,occupancy_rate` / `2024-01-01,100,0.8`: the max is the text '2024-01-01' and text + timedelta raises TypeError | convert the dates first, as app/streamlit_app.py:133 and :155 do | medium, not executed | `UploadRoot.CsvTextDatesRaise` | `UploadRoot.GeneratePredictionsParsingDates` |
