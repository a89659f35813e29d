# Budget forecasting backend — a Dafny model

This project models the core of a budget-forecasting backend: how budget rows
become quarterly time series and forecasts, and how spreadsheet uploads are
stored and read back.

- **Forecasting service** (`forecasting_service.dfy`):
  - The service folds flat historical rows into one group per key. The key is
    the string `description-department-category`. Keys keep the order in
    which they first appear.
  - Each group's series passes a sufficiency gate (at least two seasonal
    periods of observations). It then goes through an external Holt-Winters
    predictor. The forecast quarters Q1..Q4 are the first four of the last
    min(period, number of predictions) predictions, and 0 where there are
    fewer than four.
  - `analyzeVariance` compares each forecast with the first historical row for
    the same item in the year before.
- **Forecast route** (`forecast_route.dfy`):
  - The `/generate/:userId` handler defaults its query parameters (4, 0.5,
    0.3, 0.2) and applies the optional department filter.
  - It flattens the fetched proposals' line items into historical rows. Each
    quarter is the first allocation for it, and the total is their sum. It
    then calls the service.
- **Upload route** (`upload.dfy`):
  - Raw spreadsheet rows are normalised through column fallback chains.
  - The `BudgetStore` class holds the proposal, line item and allocation
    tables as sequences that the upload appends to. The upload creates one
    proposal, a line item per row, and one allocation per quarter or total
    that is positive.
  - `/rows/:userId` reads the tables back. The main property proved is a
    round trip: uploading rows and reading the new proposal back yields each
    row as `ReadBack` predicts.
- **Shared records** (`budget.dfy`): allocations, line items and proposals as
  fetched, and the flat historical row. It also holds the first-match
  allocation lookup that both routes use.

Stand-ins for things outside the model:
- JavaScript numbers are `real`.
- The Holt-Winters routine is a function parameter that returns `None` when it
  throws.
- `Number` on strings has two stand-ins:
  - in the upload route it is the `Parser` parameter, which returns `None` for NaN;
  - in the forecast route's query parameters it is `toNumber: string -> real`, which cannot yield NaN.
- The clock's year is a parameter.
- Database ids are positions in the tables.

Three behaviours of the code are worth knowing:
- A group keeps the metadata of its first row. Later rows only add to its
  series.
- The fallback (zero) forecasts keep the group's year.
- The grouping key is a string concatenation, so two different items can share
  a key (`KeyCollision`).

## Model

| member | source | states |
|---|---|---|
| Budget.FindQuarter | src/routes/upload.ts:157-161 | `find(a => a.quarter === q)` as an index: it points at an allocation for the quarter with none before it, and None means no allocation has that quarter |
| Budget.QuarterAmountFirst | src/routes/forecast.ts:35-38 | a quarter's amount is that of the first allocation for the quarter |
| Budget.QuarterAmountAbsent | src/routes/forecast.ts:35-38 | a quarter without allocations reads as 0 |
| Budget.WithoutOtherQuarter | src/routes/forecast.ts:35-38 | removing the allocations of one quarter never changes the amount looked up for another quarter |
| ForecastingService.FirstIndex | dist/src/services/forecastingService.js:15-16 | the row that creates a group is a row carrying the group's key |
| ForecastingService.FirstIndexIsFirst | dist/src/services/forecastingService.js:15-16 | no row before a group's first row carries its key |
| ForecastingService.KeyOrder | dist/src/services/forecastingService.js:13-21 | the dictionary's keys are exactly the rows' keys, each once |
| ForecastingService.KeySetIsKeys | dist/src/services/forecastingService.js:13-20 | a key is in the dictionary iff some row carries it |
| ForecastingService.KeyOrderIsFirstEncounter | dist/src/services/forecastingService.js:21 | the `for..in` visits keys in the order of their first rows |
| ForecastingService.GroupOf | dist/src/services/forecastingService.js:15-18 | a group's metadata is a row of the input with that key |
| ForecastingService.GroupOfNew | dist/src/services/forecastingService.js:15-18 | a row with a new key starts a group holding that row and its four quarters |
| ForecastingService.GroupOfSeen | dist/src/services/forecastingService.js:15-18 | a row with a seen key keeps the group's metadata and appends its four quarters to the series |
| ForecastingService.GroupOfOther | dist/src/services/forecastingService.js:13-20 | a row leaves the groups of all other keys unchanged |
| ForecastingService.GroupRows | dist/src/services/forecastingService.js:13-20 | the reduce loop yields the first-encounter key order and, for every key, the group of its first row and all its rows' quarters |
| ForecastingService.SeriesLength | dist/src/services/forecastingService.js:18 | a series holds exactly four observations per row with the key |
| ForecastingService.SeriesAppend | dist/src/services/forecastingService.js:18 | the series of concatenated inputs is the concatenation of their series |
| ForecastingService.FirstRowKept | dist/src/services/forecastingService.js:15-16 | rows appended later never change a group's first row or metadata |
| ForecastingService.SharedKeyMerges | dist/src/services/forecastingService.js:14-18 | two rows with equal keys form one group with the first row's metadata and both rows' quarters |
| ForecastingService.KeyCollision | dist/src/services/forecastingService.js:14 | two items differing in description and department can share a key when a field contains '-' |
| ForecastingService.KeyIdentifiesItem | dist/src/services/forecastingService.js:14 | with '-'-free descriptions and departments, keys are equal iff (description, department, category) are |
| ForecastingService.LastN | dist/src/services/forecastingService.js:38 | `slice(-n)` is the last min(n, length) predictions |
| ForecastingService.ValueAt | dist/src/services/forecastingService.js:40-43 | `values[k] \|\| 0` is the entry when present and 0 otherwise |
| ForecastingService.ForecastFor | dist/src/services/forecastingService.js:24-61 | below 2·period observations, or when the predictor throws, all forecast fields are 0 and the group is unchanged; otherwise the year is the group's plus one and Q1..Q4 are the first four of the last min(period, \|predictions\|) predictions, 0 where there are fewer; the total is always the sum |
| ForecastingService.ForecastGroup | dist/src/services/forecastingService.js:22-61 | one loop iteration computes exactly `ForecastFor` of its group |
| ForecastingService.GenerateForecast | dist/src/services/forecastingService.js:9-64 | one forecast per distinct key, in first-encounter order, each the `ForecastFor` of that key's group |
| ForecastingService.FindPrior | dist/src/services/forecastingService.js:68-71 | `find` returns the first row with the same description, department and category and the previous year, and None when no row matches |
| ForecastingService.VarianceFor | dist/src/services/forecastingService.js:67-89 | without a prior row every variance is "N/A"; with one, each variance is the forecast minus the first prior row's value |
| ForecastingService.AnalyzeVariance | dist/src/services/forecastingService.js:65-92 | one variance record per forecast, in order, each carrying its forecast |
| ForecastingService.SuccessComparesWithFirstRow | dist/src/services/forecastingService.js:39 | on the success path the variance step always compares with the group's first row |
| ForecastingService.FallbackHasNoPrior | dist/src/services/forecastingService.js:55-61 | on a fallback path the year is not advanced, so when no row of the key is older than the first, every variance is "N/A" |
| ForecastRoute.DefaultParams | src/routes/forecast.ts:14-17 | absent or empty parameters default to 4, 0.5, 0.3 and 0.2 |
| ForecastRoute.GivenParams | src/routes/forecast.ts:14-17 | each present parameter is its converted text, independently of the others |
| ForecastRoute.SelectItems | src/routes/forecast.ts:33 | the filter keeps exactly the items of the department, or all of them without one |
| ForecastRoute.SelectAppend | src/routes/forecast.ts:33 | filtering distributes over concatenation |
| ForecastRoute.CategoryName | src/routes/forecast.ts:44 | the category name, or "Uncategorized" when it is missing or empty; never empty |
| ForecastRoute.ToHistorical | src/routes/forecast.ts:34-52 | a line item becomes a row with its own fields and category name, whose total is the sum of its quarters |
| ForecastRoute.QuarterFromFirstAllocation | src/routes/forecast.ts:35-38 | each quarter of the row is the amount of the line item's first allocation for it |
| ForecastRoute.QuarterZeroIgnored | src/routes/forecast.ts:35-39 | the stored annual-total allocation has no effect on the assembled row |
| ForecastRoute.Assemble | src/routes/forecast.ts:31-54 | the historical data is the converted, filtered concatenation of all proposals' line items |
| ForecastRoute.FilteredDepartment | src/routes/forecast.ts:33 | with a department filter every assembled row is of that department |
| ForecastRoute.UnfilteredKeepsAll | src/routes/forecast.ts:31-54 | without a filter every line item yields exactly one row, in order |
| ForecastRoute.AssembleAppend | src/routes/forecast.ts:31 | assembly of concatenated proposal lists is the concatenation of their assemblies |
| ForecastRoute.Generate | src/routes/forecast.ts:12-67 | the handler's forecasts are the service's on the assembled data, each of the requested department, and its variance is `AnalyzeVariance` of them |
| Upload.NumberOr | src/routes/upload.ts:60 | `Number(c) \|\| rest` is the cell's number when it is non-zero and `rest` otherwise |
| Upload.FirstText | src/routes/upload.ts:55-58 | a text fallback chain yields the first non-empty column, else the fallback, and is empty only if all are |
| Upload.FirstNumber | src/routes/upload.ts:59-63 | a numeric fallback chain yields the first column with a non-zero number, else the fallback |
| Upload.Normalise | src/routes/upload.ts:50-70 | a normalised row has a description, category and department, a justification that is null or non-empty, and a non-zero year when the clock's is |
| Upload.NormaliseRows | src/routes/upload.ts:50 | one normalised row per raw row, in order |
| Upload.TextFallbacks | src/routes/upload.ts:55-58 | "Untitled", "Uncategorized" and "Unknown" apply when their columns are all empty, and justification is null exactly then |
| Upload.TotalPartMatches | src/routes/upload.ts:64-68 | for plain `Q`/`q` cells and no `Nth QUARTER` number, a total term equals the normalised quarter |
| Upload.TotalMatchesQuarters | src/routes/upload.ts:60-68 | under those conditions the total is the sum of the quarters |
| Upload.TotalMayDiffer | src/routes/upload.ts:60-68 | a sheet with only `Nth QUARTER` columns has a non-zero quarter and a zero total |
| Upload.PositiveMembers | src/routes/upload.ts:107-108 | the written allocations are exactly the candidates with a positive amount |
| Upload.ProposalYearOfUpload | src/routes/upload.ts:76 | with a non-zero clock year the proposal takes the first row's year, and the clock's only for an empty upload |
| Upload.ResponseEchoesRows | src/routes/upload.ts:124-132 | the response's `N/A` and clock fallbacks never fire: it echoes the normalised rows |
| Upload.ItemsFor | src/routes/upload.ts:82-97 | one line item per row, in order, with the row's fields and the proposal's id |
| Upload.BudgetStore.UploadRows | src/routes/upload.ts:50-133 | the tables gain one proposal with the upload's year, the rows' line items and their allocations, linked to the new ids; the tables stay linked |
| Upload.BudgetStore.InsertRows | src/routes/upload.ts:82-118 | the outer loop appends each row's line item followed by that row's allocations |
| Upload.BudgetStore.WriteAllocations | src/routes/upload.ts:99-117 | the inner loop appends the row's positive candidates in order, linked to the line item |
| Upload.UploadLinked | src/routes/upload.ts:82-118 | after an upload every line item points at an existing proposal and every allocation at an existing line item |
| Upload.TagRowsOf | src/routes/upload.ts:107-115 | looking up a line item's allocations gives back exactly what was written for its row |
| Upload.UploadedAllocations | src/routes/upload.ts:82-118 | allocations already in the table never show up under a new line item |
| Upload.ReadItem | src/routes/upload.ts:156-175 | a line item reads back iff it has a category, with the proposal's year and a non-empty department |
| Upload.ReadItemTotal | src/routes/upload.ts:161-162 | the total read back is the first annual-total allocation's amount, else the sum of the quarters |
| Upload.ReadItems | src/routes/upload.ts:156 | a proposal's items read back iff all have a category, one row per item, in order |
| Upload.RowAllocationsRead | src/routes/upload.ts:157-162 | a row's written allocations give back its non-negative quarters, and an annual total exactly when the total is positive |
| Upload.RowRoundTrip | src/routes/upload.ts:156-175 | a written row reads back as `ReadBack` predicts: same fields, proposal year, "N/A" department if empty, non-positive total replaced by the sum |
| Upload.UploadRoundTrip | src/routes/upload.ts:155-177 | uploading rows with non-negative quarters and reading the new proposal back yields `ReadBack` of each row, in order |

## Left out

- Express plumbing is not modelled: routing, authentication, the missing-userId and missing-file errors, status codes and logging.
- The `/departments` handler of the forecast route is not modelled.
- CSV and XLSX decoding is not modelled. A raw row is given as text cells and numeric cells by header.
- A text column holding a number is not modelled: text columns are strings.
- The Holt-Winters numerics are not modelled. The external routine is a parameter, and a throw is its `None` result.
- NaN and floating-point rounding are not modelled. `Number` on strings is a parameter.
- Prisma persistence is not modelled:
  - the `authorId` filter is not modelled;
  - category `connectOrCreate` by name becomes the name stored on the line item;
  - ids are table positions;
  - writes cannot fail.
- ForecastingService.GenerateForecast: the `typeof val === 'number'` filter is the identity, because every series value is a number here.
- ForecastRoute.Generate: requires the seasonality period to be a whole number of at least 1. The source passes any `Number(...)` result (a fraction, 0, negative or NaN) to the gate and to `slice`.
- ForecastRoute.Generate: the department arrives as a single string, not an array of query values.
- Upload.UploadRoundTrip: assumes that fetched line items and allocations come back in insertion order. The `findMany` of `/rows` (src/routes/upload.ts:146-153) has no `orderBy`, so the database does not promise that order; `ReadItems` and `FetchItems` assume the same.
- Upload.UploadRoundTrip: assumes non-negative quarters. A negative quarter is never written and reads back as 0.
- ForecastingService.Key: a department is a string, so a `null` department and an empty one are merged. The source keys them apart ("D-null-C" and "D--C") and its variance `find` does not match one with the other. The model also keeps `null` apart from the literal department "null", which the source merges.
- Upload.ReadItem: an item without a category yields `None`. The source throws when it reads the name, which rejects the whole request.
