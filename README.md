# Omniscience ingestion core in Dafny

This project models the ingestion core of the Omniscience service (`app.py`).
The service accepts uploads of CSV files and ZIP archives of CSV files. Each
table gets feature columns for bat speed and batter run value: a first
difference ("delta") and a rolling z-score ("oscillator"). A table with a
bat-speed oscillator also gets a cashout signal and a `pick_tracked` flag.
Every row is meant to become one `Omniscience` record and one summary in the
response. As written, a table with a numeric bat-speed column and at least
one row makes the record construction raise on its first row, and the whole
upload is rolled back (see Findings); a non-numeric bat-speed column makes
`engineer_features` raise first.
The batch is committed once, or rolled back when an exception escapes. The
model also covers the insight and projection rules of the two stored models,
`Omniscience` and `NBAStat`.

Modules, one per file:

- `Wrappers` (`wrappers.dfy`): `Option` and `Result`.
- `Series` (`series.dfy`): columns as `seq<Option<real>>`, where `None` is
  pandas' NaN. Holds `diff()`, the rolling mean and sample standard
  deviation over five rows, the oscillator and the `< -2` signal. The square
  root is a parameter (`SqrtFn`, any function that is never negative).
- `Tables` (`tables.dfy`): cells, rectangular tables, rows as maps, and the
  numeric view of a column.
- `Features` (`features.dfy`): `add_delta_and_oscillator` and
  `engineer_features`, in two forms.
  - The pure specification `Engineer`, with its lemmas.
  - The class `Frame`, a DataFrame whose columns are assigned in place. Its
    methods are proved against `Engineer`.
- `Records` (`records.dfy`): the `Omniscience(**row, ...)` construction,
  including the duplicate keyword it raises on, and the summary of a record.
- `Ingest` (`ingest.dfy`): `_process_csv` and `upload_stats`.
  - The spec functions `RowsStep` … `FilesStep` describe the walk over
    uploads, archive entries and rows.
  - The classes `Session` (pending and stored records) and `Report` (alerts
    and results) hold the state.
  - The methods `StoreRows`, `ProcessCsv`, `ProcessZip` and `UploadStats`
    have loops proved against the spec functions.
  - A `Builder` parameter chooses how a row becomes a record: `BuildRecord`
    is the call as written, `MergedBuild` the evidently intended one.
- `Insight` (`insight.dfy`): `generate_divine_insight` and `predict_future` of
  both models, on the stored field values.

Inputs that come from outside the program are parameters:

- what `pd.read_csv` makes of a file (`CsvOutcome`);
- what `zipfile` makes of an archive and of each entry (`ArchiveOutcome`,
  `EntryOutcome`);
- the square root;
- the clock (`now`);
- whether the database accepts the commit (`accepted`).

Behaviour of the code that the model keeps, although a reader might expect
otherwise:

- A window with any missing value gives a missing oscillator. `rolling(5)`
  has `min_periods` 5, so a window holding two to four numbers and a
  missing value gives a missing oscillator, not a partial one.
- A `BadZipFile` raised while opening one archive entry ends the walk of
  that archive. The `except` clause is outside the entry loop, so later
  entries are not read.
- An archive without `.csv` entries produces no alert.
- Rows are never rejected for a missing identity field.
- Exceptions from feature engineering or record construction are not
  collected as alerts. They abort the whole request with a rollback.

## Model

| member | source | states |
|---|---|---|
| Series.Delta | app.py:117 | same length as the column; entry 0 missing; entry i present iff rows i and i-1 are both present; then previous value + delta = value |
| Series.DeltaRoundTrip | app.py:117 | integrating the deltas of a fully present column from its first value gives the column back |
| Series.DeltaShiftInvariant | app.py:117 | adding a constant to every value leaves the delta column unchanged |
| Series.Spread | app.py:118 | the denominator `std + 1e-6` is at least 1e-6, so the division is never by zero |
| Series.Oscillator | app.py:118 | same length; entries 0-3 missing; entry i present iff rows i-4..i are all present (min_periods equals the window) |
| Series.OscillatorValue | app.py:118 | a present entry equals (value - window mean) / (sample std of the window + 1e-6) |
| Series.OscillatorIsLocal | app.py:118 | entry i depends only on rows i-4..i: columns that agree there agree at i |
| Series.OscillatorShiftInvariant | app.py:118 | adding a constant to every value leaves the oscillator column unchanged |
| Series.ConstantWindowScoresZero | app.py:118 | a window of equal values scores exactly 0 |
| Series.Signal | app.py:126 | same length; entry i is true iff the oscillator is present and below -2 (a NaN oscillator compares false) |
| Series.NoSignalAtOrAbove | app.py:126 | with every present oscillator value at or above -2, the signal column is all false |
| Series.SignalMeansDecline | app.py:118-126 | a signalled row had a complete window and lies more than two spreads below its window mean |
| Series.ExampleSeries | app.py:116-127 | on the column 10, 12, 11, 13, 9, 8 the first four oscillator entries are missing, entries 4 and 5 are present and no row is signalled |
| Series.ExampleFourth | app.py:118 | entry 4 of that column is -2 / (sqrt(2.5) + 1e-6) |
| Series.ExampleFifth | app.py:118 | entry 5 of that column is -2.6 / (sqrt(4.3) + 1e-6) |
| Tables.Row | app.py:163 | the row map has the table's columns as keys and row i's cell of each column |
| Tables.NumericView | app.py:117-118 | a column reads as numbers iff every cell is a number or NaN; then converting back gives the cells |
| Tables.NumericRoundTrip | app.py:117-118 | a column built from numbers reads back as the same numbers |
| Features.WithFeatureColumns | app.py:122-124 | the loop over the remaining feature columns keeps the row count and every column; an error it raises names one of those columns |
| Features.WithSignal | app.py:125-127 | raises iff `oscillator_avg_bat_speed` exists and is not numeric; else same height, keys plus `cashout_signal` and `pick_tracked` exactly when that column exists, all other columns unchanged |
| Features.Engineer | app.py:121-128 | the engineered table keeps the row count and every input column; an error names `avg_bat_speed`, `batter_run_value` or `oscillator_avg_bat_speed` |
| Features.WithFeatures | app.py:116-119 | fails iff the column is not numeric (TypeError); else same height, keys plus `delta_col` and `oscillator_col`, all other columns unchanged |
| Features.Written | app.py:121-127 | lists the columns `engineer_features` writes for the given input columns |
| Features.FeatureStepCommutes | app.py:121-128 | the loop over the feature columns is the bat-speed step, then the run-value step, then the signal step, stopping at the first error |
| Features.FeatureColumnNumeric | app.py:121-124 | a table whose features can be computed has numeric `avg_bat_speed` and `batter_run_value` columns, where present |
| Features.EngineerWritesCashout | app.py:122-126 | a table with `avg_bat_speed` or its own `oscillator_avg_bat_speed` gets a `cashout_signal` column |
| Features.EngineerFailsIff | app.py:121-128 | engineering fails iff a present feature column is not numeric, or the table has no `avg_bat_speed` and brings its own non-numeric `oscillator_avg_bat_speed` |
| Features.EngineerShape | app.py:121-128 | on success: same height, keys are the input keys plus exactly the written ones, every other column unchanged |
| Features.SignalNeedsCashout | app.py:122-127 | an engineered table with `oscillator_avg_bat_speed` always has `cashout_signal` too |
| Features.EngineerFeatureValues | app.py:122-124 | for `avg_bat_speed` and `batter_run_value`, the new columns hold exactly Delta and Oscillator of the source values |
| Features.EngineerSignalRule | app.py:125-127 | whenever the result has `oscillator_avg_bat_speed` (computed, or the table's own), that column is numeric, `cashout_signal[i]` is true iff its entry i is present and below -2, and `pick_tracked[i]` is True for every row; without `avg_bat_speed` the column is the table's own |
| Features.BatSpeedSignalRule | app.py:122-127 | with `avg_bat_speed`, `cashout_signal[i]` is the signal rule on the bat-speed oscillator computed from that column; `pick_tracked[i]` is True for every row |
| Features.Frame.constructor | app.py:162 | the frame holds the given table |
| Features.Frame.Assign | app.py:117 | the one column is replaced, nothing else changes |
| Features.Frame.AddDeltaAndOscillator | app.py:116-119 | the new frame state or the raised error is exactly `WithFeatures` of the old state |
| Features.Frame.EngineerFeatures | app.py:121-128 | the new frame state or the raised error is exactly `Engineer` of the old state |
| Records.Copied | app.py:165 | keeps exactly the row's columns that are model columns, with their values |
| Records.FirstCollision | app.py:164-171 | none iff no keyword is a row column; otherwise a keyword that is one |
| Records.BuildRecord | app.py:164-171 | raises DuplicateKeyword iff the row has a column named like an explicit keyword; else the record has the copied model columns plus the explicit ones, both flags False, delta and oscillator from `row.get`, time `now` |
| Records.EngineeredRowsCollide | app.py:121-128 | as written, no row of an engineered table with `avg_bat_speed` (or its own oscillator column) can become a record |
| Records.Explicit | app.py:166-169 | the four explicit keyword values: the row's `delta_avg_bat_speed` and `oscillator_avg_bat_speed` (`None` when absent), and its two flags, False when absent |
| Records.Summarize | app.py:173 | each of `name`, `cashout_signal` and `oscillator_bat_speed` is reported as the record's attribute of that name when it has one, and as `None` otherwise |
| Records.BuildRecordMerged | app.py:164-171 | intended construction: explicit keywords take precedence over same-named row columns, the clock's time replaces a row's own `timestamp`; never raises |
| Records.MergedAgreesWhereNoCollision | app.py:164-171 | where the call as written succeeds, the intended construction gives the same record |
| Records.MergedRecordCarriesSignal | app.py:164-171 | the intended record of an engineered bat-speed row carries the row's signal verdict, `pick_tracked` True, its oscillator and its delta |
| Ingest.RowsStep | app.py:163-173 | the rows of one table, when they go through, add no alert and exactly one record per row; earlier alerts, results and records are kept and results grow with records |
| Ingest.CsvStep | app.py:157-173 | a parse failure never aborts the walk; a file that goes through adds at most one alert and only appends, results growing with records |
| Ingest.EntriesStep | app.py:190-192 | a walk over archive entries that is not aborted only appends, results growing with records |
| Ingest.ArchiveStep | app.py:188-195 | a file that is not an archive adds exactly its "Corrupted ZIP file" alert and the walk goes on; otherwise the walk only appends |
| Ingest.FileStep | app.py:186-197 | an upload named neither `.zip` nor `.csv` changes nothing; otherwise the walk only appends |
| Ingest.FilesStep | app.py:185-197 | a walk over uploads that is not aborted only appends, results growing with records |
| Ingest.Session.Add | app.py:172 | appends the record to the pending list; stored records unchanged |
| Ingest.Session.Commit | app.py:198 | on acceptance, pending records are appended to the stored ones and pending is emptied; on refusal nothing changes |
| Ingest.Session.Rollback | app.py:201 | discards every pending record; stored records unchanged |
| Ingest.StoreRows | app.py:163-173 | the loop's outcome (new pending list and results, or the error raised) is exactly `RowsStep` from row 0 |
| Ingest.ProcessCsv | app.py:157-173 | the outcome is exactly `CsvStep` of the previous batch; nothing is committed |
| Ingest.ProcessZip | app.py:188-195 | the outcome is exactly `ArchiveStep` of the previous batch; nothing is committed |
| Ingest.UploadStats | app.py:177-202 | no files: 400, nothing touched; aborted walk: 500 with only the error, pending discarded, stored unchanged; else either the store accepts (stored gains the batch's records once, response carries alerts and results) or it refuses (rollback) |
| Ingest.SuffixesExclusive | app.py:187-196 | a name cannot end with both `.csv` and `.zip`, so routing is unambiguous |
| Ingest.RowsRunningIff | app.py:163-173 | the rows go through iff every row's construction succeeds |
| Ingest.RowsContents | app.py:163-173 | when they do: no alert added, one record and one summary per row, appended in row order |
| Ingest.RowsFirstFailure | app.py:163-173 | when they do not: the error is that of the first row that fails |
| Ingest.AsWrittenIsQuiet | app.py:164-171 | the construction as written refuses rows with `cashout_signal`, leaves the flag False and takes the oscillator from the row |
| Ingest.EngineeredRecordIsQuiet | app.py:162-173 | with such a builder, a record built from an engineered row reports neither a signal nor an oscillator |
| Ingest.CsvOutcomes | app.py:157-173 | a parse error adds exactly one "Error processing CSV: ..." alert and nothing else; a stored table adds no alert and exactly one result and record per row |
| Ingest.EngineeredCsvAborts | app.py:162-171 | as written, a non-empty table with `avg_bat_speed` (or its own oscillator column) aborts the upload |
| Ingest.MergedCsvReportsSignal | app.py:162-173 | with the intended construction, such a table is stored whole and each summary reports the row's signal verdict and oscillator |
| Ingest.CsvEntries | app.py:190-191 | keeps exactly the `.csv` entries (both directions), and no more entries than there are |
| Ingest.CsvEntriesAppend | app.py:190-191 | the filter keeps `infolist()` order and repeats: filtering `xs + ys` is filtering `xs` followed by filtering `ys` |
| Ingest.EntriesFilter | app.py:190-192 | walking an archive equals walking its `.csv` entries alone |
| Ingest.EntriesAppend | app.py:190-192 | without a corrupt entry, entries are walked one after another |
| Ingest.CorruptEntryEndsArchive | app.py:188-195 | a `BadZipFile` at an entry adds one alert naming the archive to what came before, and later entries are not read |
| Ingest.FilesGrow | app.py:185-197 | a walk that is not aborted only appends: earlier alerts, results and pending records are kept, and each new result summarises the new record at the same position |
| Ingest.CompletedUploadIsQuiet | app.py:185-199 | as written, every result of a completed upload reports no cashout signal and no oscillator |
| Ingest.Routed | app.py:187-196 | keeps exactly the uploads named `.zip` or `.csv` (both directions), and no more uploads than there are |
| Ingest.RoutedAppend | app.py:185-196 | routing keeps upload order and repeats: routing `xs + ys` is routing `xs` followed by routing `ys` |
| Ingest.OnlyRoutedFilesMatter | app.py:185-197 | uploads with any other name are skipped silently: dropping them changes nothing |
| Ingest.FilesAppend | app.py:185-197 | uploads are handled in order, each from where the previous ones left the batch |
| Ingest.FailedFileContinues | app.py:185-197 | an unparsable `.csv` or a corrupt `.zip` adds exactly one alert (the ZIP alert contains the file name) and the walk goes on with the next upload |
| Insight.OmniscienceInsight | app.py:92-99 | the first matching rule, in order: oscillator below -2.5, blast rate above 0.35, whiff rate above 0.4, else the baseline message |
| Insight.AgeFactor | app.py:104 | the age factor is 0.8 |
| Insight.Trunc | app.py:107-109 | `int(x)` truncates toward zero |
| Insight.OmniscienceForecast | app.py:100-113 | no forecast iff the bat speed is missing or zero; else peak age 27.5, decline start 32 |
| Insight.ForecastCounts | app.py:104-109 | for non-negative inputs: hits are the whole part of 24% of contacts; blasts and whiffs that of ten times the rates |
| Insight.UploadedRecordsNeverStrong | app.py:92-94 | as written, no record stored by an upload can get the STRONG insight |
| Insight.MergedStrongMeansCashout | app.py:92-94 | with the intended construction, a record with the STRONG insight also carries the cashout signal |
| Insight.NbaInsights | app.py:48-56 | one to three insights, in rule order, each present iff its condition holds, with the formatted values; `["Mortal performance"]` iff none holds |
| Insight.ZeroStealsHideDefence | app.py:54-55 | zero steals and five blocks give no defensive insight (truthiness guard) |
| Insight.DigitsBelow | app.py:59 | n decimal digits spell a number below 10^n |
| Insight.SeasonYear | app.py:59 | `season[:4]` is readable iff the season is non-empty and its first (up to four) characters are all digits; a readable year is below 10000 |
| Insight.Digits | app.py:59 | a rendering of `n` decimal digits has length `n` and only digits |
| Insight.DigitsValueOfDigits | app.py:59 | a number below 10^n rendered in n digits reads back as itself |
| Insight.DigitsOfDigitsValue | app.py:59 | a digit string read as a number and rendered in as many digits gives the string back |
| Insight.SeasonYearRoundTrip | app.py:59 | every year below 10^n rendered in n digits (four digits followed by any tail, or fewer digits alone) reads back as that year |
| Insight.SeasonYearRendering | app.py:59 | a readable season starts with the rendering of the year it reads as |
| Insight.NbaProjection | app.py:57-64 | "Unknown future" iff minutes are missing or zero; unreadable season iff `season[:4]` is not a number; else peak season is year + 2, decline age 32 for PG/SG and 34 for every other or missing position |
| Insight.ProjectionDirection | app.py:59-61 | projected points grow for seasons before 2023 and shrink from 2023 on, and are never negative |
| Insight.ExampleSeasons | app.py:59-62 | "2022-23" reads as 2022, "2024-25" as 2024; "" and "22/23" are unreadable |

## Left out

- Flask routing, JSON shaping of responses and `secure_filename`: upload names are taken as already sanitised.
- The HTML dashboard, the `to_prophecy` method and the query endpoints: these are presentation outside the ingestion core.
- SQLAlchemy internals: the session is a list of pending records plus the stored ones, and whether the database accepts the commit is a parameter.
- `pd.read_csv` and `zipfile`: these are foreign libraries, so their results and exceptions are inputs.
- `is_zip_corrupt`: it is never called from the upload path.
- `os.environ` configuration and `datetime.utcnow()`: the clock is one opaque `now` for all rows of a request, while the source reads it once per row.
- Series.Spread: the square root is an arbitrary non-negative function, not the exact root, and IEEE float rounding is not modelled; the worked example states the root values it relies on as preconditions.
- Features.WithSignal: a boolean `oscillator_avg_bat_speed` column that a table brings itself is modelled as raising TypeError, while pandas compares booleans with -2 and sets every flag False.
- Features.WithFeatures: a text cell in a feature column is modelled as the TypeError pandas raises, and a boolean cell is treated the same way, although pandas would compute on it.
- Insight.NbaProjection: `round(..., 1)` is not applied, and `season[:4]` is read only as plain decimal digits; other forms `float` or `int` accept (whitespace, a sign, underscores, an exponent) count as unreadable.
- Insight.Trunc: works on exact reals, so the float products it truncates are not rounded first.
- Records.BuildRecord: when several explicit keywords collide, the first one in call order is reported; the exact TypeError message is not modelled.

## Findings

| source | as written | input that shows it | evidently intended | confidence | as-written member | corrected member |
|---|---|---|---|---|---|---|
| app.py:164-171 | the row's columns are copied as keywords, and `cashout_signal`, `pick_tracked`, `delta_bat_speed`, `oscillator_bat_speed` and `timestamp` are passed again explicitly, so Python raises TypeError for a repeated keyword; `engineer_features` adds `cashout_signal` whenever `avg_bat_speed` exists, so every such upload with at least one row is rolled back | a CSV with header `name,avg_bat_speed` and one row `A,70.0` | the explicit values take precedence over same-named row columns, and the record stores the row's signal, oscillator and delta | high; not executed | Records.EngineeredRowsCollide | Records.MergedRecordCarriesSignal |
