# TMS dashboard data core, modelled in Dafny

The TMS dashboard (`app.py`) is a Streamlit page. It reads an uploaded Excel
workbook of transport-management data. `load_tms_data` turns the workbook's
sheets into a dictionary of datasets. This model covers that function and the
key figures the page computes from the dictionary.

- **Volume sheet.** The service and country volumes are extracted from the
  "Volume per SVC" sheet. Each row is classified as a service row, a country
  row or a row to skip, and the results are folded into two maps.
- **OTP sheet.** The "OTP POD" sheet keeps its first six columns under fixed
  names. Rows without an order id are dropped.
- **Cost sheet.** The "cost sales" sheet is named positionally from an
  18-name list, and its order date is converted.
- **Dispatch.** Each output key exists only when its sheet does. A failed
  column renaming makes the whole load fail.
- **Figures.** The figures modelled are:
  - the OTP rate;
  - revenue, cost and margin;
  - the positive cost components;
  - the per-country revenue/cost/gross table with its profit column;
  - the lane network totals.

Modules:

- `Cells` (cells.dfy) covers cells, tables and columns. It also holds `str.strip`, column sums and counting.
- `Sums` (sums.dfy) defines the sum of a map's values, which is independent of order.
- `Volume` (volume.dfy) holds the row classifier, the fold, and the imperative extraction loop (`ExtractVolumes`).
- `Loader` (loader.dfy) covers column naming, the order filter, sheet dispatch, and the imperative `LoadTmsData`.
- `Kpi` (kpi.dfy) covers the OTP rate, margin, financial totals, cost components (a loop) and lane statistics.
- `CountryGroups` (groupby.dfy) is the `groupby('PU_Country')` aggregation.

A workbook is a `map<string, Table>` from sheet name to an already-parsed table. The table's column labels are the sheet's first row; pandas reads the first row as the header.

A cell can be one of five kinds:

- blank (`NaN`);
- a number;
- a boolean, which Python treats as the integer 1 or 0;
- a text;
- any other value, such as a timestamp.

Two conversions the source delegates to library code are parameters of the model:

- Python's `float()` applied to text;
- `pd.to_datetime`, once for serial numbers (value by value) and once for a whole non-numeric column.

Three behaviours of the code that a reader might not expect, all followed by the model:

- **OTP sheet.** An "OTP POD" sheet with fewer than six columns makes the whole load fail. `iloc[:, :6]` keeps fewer than six columns, and assigning six names to them raises. The failure is `LengthMismatch(n, 6)`.
- **Cost sheet.** A "cost sales" sheet with more than 18 columns also fails rather than being truncated. `expected_cols[:n]` cannot supply more than 18 names. The failure is `LengthMismatch(n, 18)`.
- **Extra key.** The dictionary also carries a `volume_raw` key, holding the volume sheet as read.

## Model

| member | source | states |
|---|---|---|
| Volume.CodeSetsDisjoint | app.py:117-118 | No code is both a service type and a country, so the `if/elif` never has to choose. |
| Volume.Classify | app.py:159-182 | A row yields a volume only if it has at least 2 cells, cell 0 and cell 1 are non-blank, and its stripped text key is the code. A service row takes `float(cell 1)`. A country row takes the sum of the positive numbers from cell 1 on, and only when that sum is positive. |
| Volume.ClassifyComplete | app.py:160-182 | The converse of Classify. A readable service row and a country row with a positive sum are always recorded. An unreadable service value, a zero country sum or an unknown code makes the row skipped. |
| Volume.BlankSecondCellSkipped | app.py:160 | A row with a blank second cell is skipped whatever its later cells hold. This applies to country rows too. |
| Volume.PositiveSumPositive | app.py:175-179 | The country total is positive exactly when some cell from index 1 on holds a positive number. |
| Volume.CountryTotal | app.py:175-178 | The inner loop accumulates exactly the positive-numbers sum of `row[1:]`. |
| Volume.ExtractVolumes | app.py:155-185 | The imperative loop over rows leaves the two dictionaries equal to the fold of the row verdicts, taken in row order. |
| Volume.ExtractedSnoc | app.py:159 | Each further row applies its own verdict to the maps built so far. |
| Volume.ExtractedKeys | app.py:165-180 | Every service key is in SERVICE_TYPES. Every country key is in COUNTRIES. Every stored country volume is strictly positive. |
| Volume.CountryTotalPositive | app.py:241 | The country volumes add up to a positive total exactly when there is at least one of them. |
| Volume.OneRowOneKey | app.py:165-180 | One row changes at most one of the two maps, and at most one key in it. |
| Volume.KeyPresentIffWritten | app.py:165-180 | A code is a key of a map exactly when some row's verdict writes it there. |
| Volume.LastRowWins | app.py:165-180 | The stored value of a code is that of the last row writing it. |
| Volume.UnreadableServiceRowIgnored | app.py:166-169 | A service row whose value `float()` rejects leaves both maps unchanged. |
| Volume.ExampleLastServiceRowWins | app.py:165-180 | The verdicts service CTX 5, country NL 7 and service CTX 6 fold to `{CTX: 6}` and `{NL: 7}`. |
| Volume.Key | app.py:161 | A row has a candidate key exactly when its first cell is a text; the key is that text stripped. |
| Volume.KeyStripped | app.py:161 | A key is already stripped: stripping it again changes nothing. |
| Volume.ToFloat | app.py:167 | A number converts to itself and a boolean to 1 or 0. A text converts as `parse` says. A blank or any other value does not convert. |
| Volume.ExampleServiceRow | app.py:159-169 | The row `CTX, 5, 0, 0` is the service volume CTX 5; its later cells play no part. |
| Volume.ExampleCountryRow | app.py:171-180 | The row `NL, 3, 4, 0` is the country volume NL 7, the sum of its positive cells. |
| Volume.ExampleRows | app.py:155-185 | Reading those two rows in turn gives `{CTX: 5}` and `{NL: 7}`. |
| Loader.TakeColumns | app.py:144 | `iloc[:, :k]` keeps the first min(k, n) columns of every row. |
| Loader.Rename | app.py:199-200 | Assigning a name list (here and at app.py:145) succeeds exactly when its length equals the column count. Otherwise it fails with the two lengths. |
| Loader.DropNullOrdersKeepsOrder | app.py:146 | The surviving rows are the input rows at strictly increasing indices. A row survives exactly when its order id is not blank. |
| Loader.NormalizeOtp | app.py:143-147 | The OTP table succeeds exactly when the sheet has at least 6 columns, and fails with `LengthMismatch(n, 6)` otherwise. On success it has the six fixed names, at most as many rows as the sheet, and an order id in every row. |
| Loader.SafeDateConversion | app.py:120-128 | A numeric column is converted value by value as serial day numbers, with blanks kept blank. Any other column is converted as a whole, one result per row. |
| Loader.SetColumn | app.py:203 | Assigning a column keeps the labels and the shape of the table. It replaces exactly the cells at that position and keeps every other cell. |
| Loader.NormalizeCostSales | app.py:192-205 | The cost table succeeds exactly when the sheet has at most 18 columns, and fails with `LengthMismatch(n, 18)` otherwise. On success its labels are the first n expected names. The order-date column is replaced by its conversion, and every other cell is kept. |
| Loader.CostNamesFit | app.py:199-200 | Never more names than columns are taken. On success every column gets exactly one name. Fewer than 18 columns always succeed. |
| Loader.LoadFailsExactly | app.py:134-211 | The load fails exactly when an OTP sheet with fewer than 6 columns, or a cost sheet with more than 18, is present. The OTP sheet is checked first. |
| Loader.LoadedKeys | app.py:139-205 | Each key is present exactly when its sheet is present: `raw_data`, `otp`, `volume_raw`, `service_volumes`, `country_volumes`, `lanes` and `cost_sales`. No other key is ever present. |
| Loader.LoadedValues | app.py:140-205 | Each present key holds the copied sheet (`raw_data`, `volume_raw`, `lanes`), the normalized table (`otp`, `cost_sales`) or the extracted volumes. |
| Loader.OnlyOtpSheet | app.py:139-207 | A workbook with only a wide enough OTP sheet loads to a dictionary with only `otp`. |
| Loader.LoadTmsData | app.py:131-211 | The method that builds the dictionary key by key agrees with the dispatch function Loaded. |
| Kpi.OnTimeAtMostTotal | app.py:250-251 | There are never more on-time statuses than non-blank statuses. |
| Kpi.OtpRate | app.py:249-252 | The rate lies in [0, 100]. It is 0 without statuses, and otherwise rate × total = on-time × 100. |
| Kpi.Otp | app.py:244-252 | Without a Status column there are 0 orders at rate 0. Otherwise the order count is the number of non-blank statuses, and the rate is the OTP rate of the Status column, so it is in [0, 100]. |
| Kpi.ExampleRate | app.py:249-252 | The statuses LATE and ON TIME give 2 orders and a rate of 50. |
| Kpi.Margin | app.py:264 | The margin is 0 without positive revenue. Otherwise margin × revenue = (revenue − cost) × 100. |
| Kpi.MarginProperties | app.py:264 | With positive revenue, the margin is non-negative exactly when cost ≤ revenue. It is at most 100 for a non-negative cost. |
| Kpi.FinancialTotals | app.py:255-264 | Revenue is the sum of the Net_Revenue column and cost the sum of the Total_Cost column, when they exist. The margin is that of the two totals. A missing revenue column gives revenue and margin 0, and a missing cost column gives cost 0. |
| Kpi.NarrowCostSheet | app.py:255-264 | A named cost sheet has Net_Revenue exactly from 11 columns on and Total_Cost from 10 on. Below 11 columns its revenue and margin are 0. |
| Kpi.LabelsFromColumns | app.py:567-572 | Each component's label is its column name with `_Cost` removed. No two components share a label. |
| Kpi.ComponentCost | app.py:568-571 | A component has a value exactly when its column exists and sums to more than 0. The value is that sum. |
| Kpi.CollectMeaning | app.py:566-572 | The breakdown built over the components visited so far holds exactly those with a cost, each with that cost. |
| Kpi.CostComponents | app.py:566-572 | The loop leaves the map the four steps build. A component is present exactly when its column exists and sums to more than 0. It holds that sum, which is positive. |
| Kpi.LaneStatistics | app.py:770-792 | Active lanes never exceed the cell count. Shipments imply an active lane. The average times the active lanes is the total, and the average is 0 without active lanes. |
| Kpi.AveragePerLane | app.py:792 | The average times the active lanes is the total shipments. Without active lanes the average is 0. |
| Kpi.ShipmentsNeedActiveLanes | app.py:774-777 | A positive shipment total over the numeric columns implies a positive count of positive cells. |
| CountryGroups.AccumulateIsDirect | app.py:599-603 | The groups are exactly the non-blank countries present. Each group's aggregate equals the reference reduction over that country's own rows. |
| CountryGroups.RevenuePartition | app.py:599-603 | The per-country revenue sums add up to the revenue of all rows with a non-blank country. |
| CountryGroups.Finish | app.py:599-605 | Profit is revenue minus cost, taken after the reduction. A mean is present exactly when the group has a numeric gross figure, and mean × count = sum. |
| CountryGroups.GroupProperties | app.py:599-605 | Each entry is the country's own revenue and cost sums, with profit their difference. The entries' revenues add up to the non-blank-country revenue. |
| CountryGroups.NoBlankCountry | app.py:599-603 | With no blank country, the non-blank-country revenue is the whole revenue column's sum. |
| CountryGroups.ByCountry | app.py:596-605 | Without PU_Country the section is absent. A report exists exactly when all four aggregated columns exist. |
| CountryGroups.ReportCoversRevenue | app.py:599-605 | When every row has a country, the report's revenues add up to the Net_Revenue column sum. |
| Cells.Strip | app.py:161 | `str.strip()` leaves no white space at either end and returns a contiguous slice of the input. |
| Cells.StripCutsOnlySpace | app.py:161 | Everything `str.strip()` cuts off before and after the slice it keeps is white space. |
| Cells.StripIdempotent | app.py:161 | Stripping an already stripped text changes nothing. |
| Cells.ColumnSum | app.py:261-263 | `Series.sum()` adds the numeric cells and skips blanks. A column with no number sums to 0, and a column with no negative number sums to at least 0. |
| Cells.CountIsCardinality | app.py:250-251 | The counted statuses are exactly the positions satisfying the test. |

## Left out

- The Streamlit page itself is not modelled: widgets, CSS, tabs, charts, narrative insight text and number formatting are presentation.
- `pd.read_excel` is not modelled. The workbook is given as a map from sheet name to parsed table whose header is the first row.
- The text grammar of Python's `float()` is a parameter (`parse`). Numbers and booleans convert directly.
- `pd.to_datetime` is not modelled. Serial-day and text conversion are parameters of `Readers`.
- Loader.SafeDateConversion: the `except` fallback of `safe_date_conversion` is not modelled. The two parameter functions are total, so that fallback cannot arise.
- Loader.SafeDateConversion: the column converter's result is read one cell per row. A converter giving a result of another length is cut off or padded with blanks; `pd.to_datetime` always gives one value per row, and for that case the result is the converter's unchanged.
- `@st.cache_data` memoisation is left out, because it affects speed only.
- The case of no uploaded file (`return None` at app.py:212) is left out; the model always starts from a workbook.
- `str(...)` of non-text first cells is not modelled. Only text cells give a key, and a number never stringifies to one of the fixed codes.
- Cells that are text inside a numeric column are not modelled for the sums. A text contributes 0, whereas pandas would concatenate strings or raise in an object column. Integer cells wider than a double, and numpy integer types, are treated as plain numbers.
- Kpi.LaneStatistics: `select_dtypes(include=[np.number])` is modelled as "only numbers and blanks". A boolean column (numpy's bool dtype is not a number) is therefore excluded, as in pandas.
- `.round(2)` on the per-country table, and the `int(...)` display conversions, are float rounding and are not modelled. CountryGroups.Finish computes profit from the unrounded sums; the source subtracts the rounded ones.
- The `sort_values`/`head(10)` ordering of the per-country table is presentation and is not modelled.
- `pd.cut` margin binning, and the statistics mean/median/std of the raw data, are float numerics for charts and are not modelled.
- CountryGroups.ByCountry: a missing aggregated column results in `MissingColumn`. The source raises a KeyError there, outside the load's `try`, so the page stops.
- Floating point is modelled as exact real arithmetic throughout, so sums are independent of order.
- Kpi.CostComponents: the chart's dictionary is keyed by the chart label string. The model keys it by a four-valued `Component`, whose label `LabelOf` gives. Kpi.LabelsFromColumns shows that this labelling is one-to-one.
